/** Which function calls survive parsing. An empty IN list deletes its operand, and a
    false conjunction both of its sides, if no flag says that they contain a function,
    which could be an aggregate. The flag does not see every call, so some are lost. */
module ExprCalls {
  import opened ExprRewrites

  // ----- The calls of a source expression and of a tree -------------------------------------

  // The calls of two parts together.
  function Both(a: multiset<Func>, b: multiset<Func>): multiset<Func> { a + b }

  function CallsOf(s: Src): multiset<Func> {
    match s
    case Column(_) => multiset{}
    case Literal(_) => multiset{}
    case Call(f, args) => Both(multiset{f}, CallsOfAll(args))
    case Vector(items) => CallsOfAll(items)
    case Sign(_, x) => CallsOf(x)
    case Not(x) => CallsOf(x)
    case And(x, y) => Both(CallsOf(x), CallsOf(y))
    case Or(x, y) => Both(CallsOf(x), CallsOf(y))
    case Equal(x, y) => Both(CallsOf(x), CallsOf(y))
    case IsNull(_, x) => CallsOf(x)
    case Is(_, x, y) => Both(CallsOf(x), CallsOf(y))
    case Distinct(_, x, y) => Both(CallsOf(x), CallsOf(y))
    case Between(_, x, lo, hi) => Both(CallsOf(x), Both(CallsOf(lo), CallsOf(hi)))
    case In(_, x, items) => Both(CallsOf(x), CallsOfAll(items))
  }

  function CallsOfAll(ss: seq<Src>): multiset<Func> {
    if ss == [] then multiset{} else Both(CallsOf(ss[0]), CallsOfAll(ss[1..]))
  }

  function CallsIn(e: Expr): multiset<Func> {
    match e
    case TkColumn(_) => multiset{}
    case TkLiteral(_) => multiset{}
    case TkTrueFalse(_) => multiset{}
    case TkFunction(f, args) => Both(multiset{f}, CallsInAll(args))
    case TkVector(items) => CallsInAll(items)
    case TkUplus(x) => CallsIn(x)
    case TkUminus(x) => CallsIn(x)
    case TkNot(x) => CallsIn(x)
    case TkAnd(x, y) => Both(CallsIn(x), CallsIn(y))
    case TkOr(x, y) => Both(CallsIn(x), CallsIn(y))
    case TkEq(x, y) => Both(CallsIn(x), CallsIn(y))
    case TkNullTest(_, x) => CallsIn(x)
    case TkIs(_, x, y) => Both(CallsIn(x), CallsIn(y))
    case TkBetween(x, lo, hi) => Both(CallsIn(x), Both(CallsIn(lo), CallsIn(hi)))
    case TkIn(x, items) => Both(CallsIn(x), CallsInAll(items))
    case TkInSelect(x, items) => Both(CallsIn(x), CallsInAll(items))
  }

  function CallsInAll(es: seq<Expr>): multiset<Func> {
    if es == [] then multiset{} else Both(CallsIn(es[0]), CallsInAll(es[1..]))
  }

  // ----- What can be told from the source alone ----------------------------------------------

  // A call occurs where the flag sees it: not in a later item of a vector, not in a
  // bound of BETWEEN, not in a row that a vector is compared with.
  predicate Visible(s: Src) {
    match s
    case Column(_) => false
    case Literal(_) => false
    case Call(_, _) => true
    case Vector(items) => items != [] && Visible(items[0])
    case Sign(_, x) => Visible(x)
    case Not(x) => Visible(x)
    case And(x, y) => Visible(x) || Visible(y)
    case Or(x, y) => Visible(x) || Visible(y)
    case Equal(x, y) => Visible(x) || Visible(y)
    case IsNull(_, x) => Visible(x)
    case Is(_, x, y) => Visible(x) || Visible(y)
    case Distinct(_, x, y) => Visible(x) || Visible(y)
    case Between(_, x, _, _) => Visible(x)
    case In(_, x, items) => Visible(x) || (!x.Vector? && VisibleAny(items))
  }

  predicate VisibleAny(ss: seq<Src>) { ss != [] && (Visible(ss[0]) || VisibleAny(ss[1..])) }

  // Under its signs, a literal that is not NULL or something folded to one.
  predicate FoldsToLiteral(s: Src)
    decreases s, 1
  {
    match s
    case Literal(v) => v.Int? || v.Float? || v.Text? || v.Blob?
    case Sign(_, x) => FoldsToLiteral(x)
    case And(x, y) => AndFolds(x, y)
    case IsNull(_, x) => FoldsToLiteral(x)
    case Is(_, x, y) => y == Literal(Null) && FoldsToLiteral(x)
    case Distinct(_, x, y) => y == Literal(Null) && FoldsToLiteral(x)
    case _ => false
  }

  // A zero, or something folded to false.
  predicate FoldsToFalse(s: Src)
    decreases s, 1
  {
    match s
    case Literal(v) => v == Int(0)
    case And(x, y) => AndFolds(x, y)
    case IsNull(negated, x) => !negated && FoldsToLiteral(x)
    case Is(negated, x, y) => !negated && y == Literal(Null) && FoldsToLiteral(x)
    case Distinct(negated, x, y) => negated && y == Literal(Null) && FoldsToLiteral(x)
    case In(negated, x, items) => !negated && InFolds(x, items)
    case _ => false
  }

  // The two guards.
  predicate AndFolds(x: Src, y: Src)
    decreases And(x, y), 0
  {
    (FoldsToFalse(x) || FoldsToFalse(y)) && !Visible(x) && !Visible(y)
  }

  predicate InFolds(x: Src, items: seq<Src>) { items == [] && !Visible(x) }

  // Some part of s is folded away although it contains a call.
  predicate Loses(s: Src) {
    match s
    case Column(_) => false
    case Literal(_) => false
    case Call(_, args) => LosesAny(args)
    case Vector(items) => LosesAny(items)
    case Sign(_, x) => Loses(x)
    case Not(x) => Loses(x)
    case And(x, y) => if AndFolds(x, y) then CallsOf(s) != multiset{} else Loses(x) || Loses(y)
    case Or(x, y) => Loses(x) || Loses(y)
    case Equal(x, y) => Loses(x) || Loses(y)
    case IsNull(_, x) => Loses(x)
    case Is(_, x, y) => Loses(x) || Loses(y)
    case Distinct(_, x, y) => Loses(x) || Loses(y)
    case Between(_, x, lo, hi) => Loses(x) || Loses(lo) || Loses(hi)
    case In(_, x, items) => if InFolds(x, items) then CallsOf(s) != multiset{} else Loses(x) || LosesAny(items)
  }

  predicate LosesAny(ss: seq<Src>) { ss != [] && (Loses(ss[0]) || LosesAny(ss[1..])) }

  // ----- The flags of the tree can be told from the source -------------------------------------

  predicate FuncAny(es: seq<Expr>) { exists k | 0 <= k < |es| :: HasFunc(es[k]) }

  ghost predicate Told(s: Src) {
    && (HasFunc(Build(s)) <==> Visible(s))
    && (NonNullLiteral(Unsigned(Build(s))) <==> FoldsToLiteral(s))
    && (IsFalse(Build(s)) <==> FoldsToFalse(s))
    && (Build(s).TkVector? <==> s.Vector?)
    && (Build(s) == TkLiteral(Null) <==> s == Literal(Null))
  }

  lemma {:induction false} UnsignedFlag(e: Expr)
    ensures HasFunc(Unsigned(e)) <==> HasFunc(e)
  {
    if e.TkUplus? || e.TkUminus? { UnsignedFlag(e.left); }
  }

  lemma {:induction false} UnsignedCalls(e: Expr)
    ensures CallsIn(Unsigned(e)) == CallsIn(e)
  {
    if e.TkUplus? || e.TkUminus? { UnsignedCalls(e.left); }
  }

  lemma ToldUnary(x: Src, minus: bool)
    requires Told(x)
    ensures Told(Not(x)) && Told(Sign(minus, x))
  {}

  lemma ToldBinary(x: Src, y: Src)
    requires Told(x) && Told(y)
    ensures Told(Or(x, y)) && Told(Equal(x, y))
  {}

  lemma ToldAnd(x: Src, y: Src)
    requires Told(x) && Told(y)
    ensures Told(And(x, y))
  {}

  // Whether a NULL test is folded, and to what.
  lemma NullTestShape(op: Op, x: Expr)
    requires op == ISNULL || op == NOTNULL
    ensures NonNullLiteral(Unsigned(PExprIsNull(op, x))) <==> NonNullLiteral(Unsigned(x))
    ensures IsFalse(PExprIsNull(op, x)) <==> op == ISNULL && NonNullLiteral(Unsigned(x))
    ensures !PExprIsNull(op, x).TkVector? && PExprIsNull(op, x) != TkLiteral(Null)
  {
    var e := PExprIsNull(op, x);
    assert Unsigned(e) == e;
  }

  lemma NullTestFlag(op: Op, x: Expr)
    ensures HasFunc(PExprIsNull(op, x)) <==> HasFunc(x)
  {
    UnsignedFlag(x);
  }

  lemma ToldNullTest(negated: bool, x: Src)
    requires Told(x)
    ensures Told(IsNull(negated, x))
  {
    hide CallsIn, CallsOf, HasFunc, IsFalse, NonNullLiteral, Unsigned, PExprIsNull;
    NullTestShape(if negated then NOTNULL else ISNULL, Build(x));
    NullTestFlag(if negated then NOTNULL else ISNULL, Build(x));
  }

  lemma IsShape(op: Op, x: Expr, y: Expr)
    requires op == IS || op == ISNOT
    ensures NonNullLiteral(Unsigned(PExprIs(op, x, y))) <==> y == TkLiteral(Null) && NonNullLiteral(Unsigned(x))
    ensures IsFalse(PExprIs(op, x, y)) <==> op == IS && y == TkLiteral(Null) && NonNullLiteral(Unsigned(x))
    ensures !PExprIs(op, x, y).TkVector? && PExprIs(op, x, y) != TkLiteral(Null)
  {
    hide PExprIsNull;
    NullTestShape(if op == IS then ISNULL else NOTNULL, x);
    assert Unsigned(TkIs(op, x, y)) == TkIs(op, x, y);
  }

  lemma IsFlag(op: Op, x: Expr, y: Expr)
    ensures HasFunc(PExprIs(op, x, y)) <==> HasFunc(x) || HasFunc(y)
  {
    hide PExprIsNull, HasFunc;
    ComparedFlag(op, x, y);
    NullTestFlag(if op == IS then ISNULL else NOTNULL, x);
  }

  lemma ComparedFlag(op: Op, x: Expr, y: Expr)
    ensures HasFunc(TkIs(op, x, y)) <==> HasFunc(x) || HasFunc(y)
    ensures !HasFunc(TkLiteral(Null))
  {}

  lemma ToldIs(negated: bool, x: Src, y: Src)
    requires Told(x) && Told(y)
    ensures Told(Is(negated, x, y)) && Told(Distinct(negated, x, y))
  {
    hide CallsIn, CallsOf, HasFunc, IsFalse, NonNullLiteral, Unsigned, PExprIs;
    IsShape(IS, Build(x), Build(y));
    IsShape(ISNOT, Build(x), Build(y));
    IsFlag(IS, Build(x), Build(y));
    IsFlag(ISNOT, Build(x), Build(y));
  }

  lemma ToldList(f: Func, items: seq<Src>)
    requires items != [] ==> Told(items[0])
    ensures Told(Vector(items)) && Told(Call(f, items))
  {
    hide CallsIn, CallsOf;
    if items != [] { assert BuildAll(items)[0] == Build(items[0]); }
  }

  lemma ToldBetween(negated: bool, x: Src, lo: Src, hi: Src)
    requires Told(x)
    ensures Told(Between(negated, x, lo, hi))
  {}

  lemma ToldIn(negated: bool, x: Src, items: seq<Src>)
    requires Told(x) && (FuncAny(BuildAll(items)) <==> VisibleAny(items))
    ensures Told(In(negated, x, items))
  {
    hide HasFunc, Visible, VisibleAny, FuncAny, IsConstant, CallsIn, CallsOf;
    InFlag(negated, Build(x), BuildAll(items));
    InShape(negated, Build(x), BuildAll(items));
    VisibleIn(negated, x, items);
  }

  lemma VisibleIn(negated: bool, x: Src, items: seq<Src>)
    ensures Visible(In(negated, x, items)) <==> Visible(x) || (!x.Vector? && VisibleAny(items))
  {}

  lemma InShape(negated: bool, x: Expr, items: seq<Expr>)
    ensures !NonNullLiteral(Unsigned(InAction(negated, x, items))) && !InAction(negated, x, items).TkVector?
    ensures IsFalse(InAction(negated, x, items)) <==> !negated && items == [] && !HasFunc(x)
  {
    hide HasFunc, IsConstant;
  }

  lemma NegatedFlag(negated: bool, e: Expr)
    ensures HasFunc(Negated(negated, e)) <==> HasFunc(e)
  {}

  lemma InFlag(negated: bool, x: Expr, items: seq<Expr>)
    ensures HasFunc(InAction(negated, x, items)) <==> HasFunc(x) || (!x.TkVector? && FuncAny(items))
  {
    hide IsConstant, Negated, CallsIn;
    NegatedFlag(negated, TkIn(x, items));
    NegatedFlag(negated, TkInSelect(x, items));
    if |items| == 1 {
      NegatedFlag(negated, TkEq(x, TkUplus(items[0])));
      assert HasFunc(TkUplus(items[0])) <==> HasFunc(items[0]);
    }
  }

  lemma {:induction false} AllTold(s: Src)
    ensures Told(s)
    decreases s, 0
  {
    hide Told;
    match s
    case Column(_) => ToldLeaf(s);
    case Literal(_) => ToldLeaf(s);
    case Call(f, args) => AllToldList(args); ToldList(f, args);
    case Vector(items) => AllToldList(items); ToldList(Func(0, false), items);
    case Sign(minus, x) => AllTold(x); ToldUnary(x, minus);
    case Not(x) => AllTold(x); ToldUnary(x, true);
    case And(x, y) => AllTold(x); AllTold(y); ToldAnd(x, y);
    case Or(x, y) => AllTold(x); AllTold(y); ToldBinary(x, y);
    case Equal(x, y) => AllTold(x); AllTold(y); ToldBinary(x, y);
    case IsNull(negated, x) => AllTold(x); ToldNullTest(negated, x);
    case Is(negated, x, y) => AllTold(x); AllTold(y); ToldIs(negated, x, y);
    case Distinct(negated, x, y) => AllTold(x); AllTold(y); ToldIs(negated, x, y);
    case Between(negated, x, lo, hi) => AllTold(x); ToldBetween(negated, x, lo, hi);
    case In(negated, x, items) => AllTold(x); AllToldList(items); ToldIn(negated, x, items);
  }

  lemma ToldLeaf(s: Src)
    requires s.Column? || s.Literal?
    ensures Told(s)
  {}

  lemma {:induction false} AllToldList(ss: seq<Src>)
    ensures FuncAny(BuildAll(ss)) <==> VisibleAny(ss)
    ensures ss != [] ==> Told(ss[0])
    decreases ss, 1
  {
    hide HasFunc, Visible, Build;
    if ss != [] {
      AllTold(ss[0]);
      assert HasFunc(Build(ss[0])) <==> Visible(ss[0]);
      AllToldList(ss[1..]);
      var es, rest := BuildAll(ss), BuildAll(ss[1..]);
      assert es[0] == Build(ss[0]) && es[1..] == rest;
      if FuncAny(rest) {
        var k :| 0 <= k < |rest| && HasFunc(rest[k]);
        assert es[k + 1] == rest[k];
      }
    }
  }

  // ----- Which calls are kept -------------------------------------------------------------------

  // The tree has no call that the source has not, and it has all of them exactly if
  // nothing with a call is folded away.
  ghost predicate Exact(e: multiset<Func>, s: multiset<Func>, loses: bool) {
    e <= s && (e == s <==> !loses)
  }

  ghost predicate Kept(s: Src) { Exact(CallsIn(Build(s)), CallsOf(s), Loses(s)) }

  lemma Sum(a: multiset<Func>, a': multiset<Func>, b: multiset<Func>, b': multiset<Func>, la: bool, lb: bool)
    requires Exact(a, a', la) && Exact(b, b', lb)
    ensures Exact(Both(a, b), Both(a', b'), la || lb)
  {
    if a + b == a' + b' {
      forall f: Func
        ensures a[f] == a'[f] && b[f] == b'[f]
      {
        assert (a + b)[f] == a[f] + b[f] && (a' + b')[f] == a'[f] + b'[f];
      }
    }
  }

  lemma BothEmpty(a: multiset<Func>)
    ensures Both(a, multiset{}) == a && Both(multiset{}, a) == a
  {}

  // Folding to nothing loses exactly what was there.
  lemma Dropped(a: multiset<Func>)
    ensures Exact(multiset{}, a, a != multiset{})
  {}

  // CallsIn and CallsOf, operator by operator.
  lemma Binary(x: Expr, y: Expr)
    ensures CallsIn(TkAnd(x, y)) == Both(CallsIn(x), CallsIn(y))
    ensures CallsIn(TkOr(x, y)) == Both(CallsIn(x), CallsIn(y))
  {
    hide Both;
  }

  lemma Compared(op: Op, x: Expr, y: Expr)
    ensures CallsIn(TkEq(x, y)) == Both(CallsIn(x), CallsIn(y))
    ensures CallsIn(TkIs(op, x, y)) == Both(CallsIn(x), CallsIn(y))
  {
    hide Both;
  }

  lemma Unary(op: Op, x: Expr)
    ensures CallsIn(TkUplus(x)) == CallsIn(x) && CallsIn(TkUminus(x)) == CallsIn(x)
    ensures CallsIn(TkNot(x)) == CallsIn(x) && CallsIn(TkNullTest(op, x)) == CallsIn(x)
  {
    hide Both;
  }

  lemma Leaf(v: Value, b: bool)
    ensures CallsIn(TkLiteral(v)) == multiset{} && CallsIn(TkTrueFalse(b)) == multiset{}
  {}

  lemma Listed(x: Expr, items: seq<Expr>)
    ensures CallsIn(TkIn(x, items)) == Both(CallsIn(x), CallsInAll(items))
    ensures CallsIn(TkInSelect(x, items)) == Both(CallsIn(x), CallsInAll(items))
  {
    hide Both, CallsInAll;
  }

  lemma Bounded(x: Expr, lo: Expr, hi: Expr)
    ensures CallsIn(TkBetween(x, lo, hi)) == Both(CallsIn(x), Both(CallsIn(lo), CallsIn(hi)))
  {
    hide Both;
  }

  lemma NegatedCalls(negated: bool, e: Expr)
    ensures CallsIn(Negated(negated, e)) == CallsIn(e)
  {
    hide Both, CallsIn;
    Unary(IS, e);
  }

  lemma AndSource(x: Src, y: Src)
    ensures CallsOf(And(x, y)) == Both(CallsOf(x), CallsOf(y))
  {
    hide Both;
  }

  lemma OrSource(x: Src, y: Src)
    ensures CallsOf(Or(x, y)) == Both(CallsOf(x), CallsOf(y))
    ensures CallsOf(Equal(x, y)) == Both(CallsOf(x), CallsOf(y))
  {
    hide Both;
  }

  lemma IsSource(negated: bool, x: Src, y: Src)
    ensures CallsOf(Is(negated, x, y)) == Both(CallsOf(x), CallsOf(y))
    ensures CallsOf(Distinct(negated, x, y)) == Both(CallsOf(x), CallsOf(y))
  {
    hide Both;
  }

  lemma KeptUnary(x: Src, minus: bool)
    requires Kept(x)
    ensures Kept(Not(x)) && Kept(Sign(minus, x))
  {
    hide Both, Exact;
  }

  lemma KeptBinary(x: Src, y: Src)
    requires Kept(x) && Kept(y)
    ensures Kept(Or(x, y)) && Kept(Equal(x, y))
  {
    hide Both, Exact, CallsIn, CallsOf;
    Binary(Build(x), Build(y));
    Compared(IS, Build(x), Build(y));
    OrSource(x, y);
    Sum(CallsIn(Build(x)), CallsOf(x), CallsIn(Build(y)), CallsOf(y), Loses(x), Loses(y));
  }

  lemma KeptAnd(x: Src, y: Src)
    requires Kept(x) && Kept(y) && Told(x) && Told(y)
    ensures Kept(And(x, y))
  {
    hide Both, Exact, CallsIn, CallsOf, HasFunc, Visible, IsFalse, FoldsToFalse;
    Binary(Build(x), Build(y));
    AndSource(x, y);
    Leaf(Int(0), false);
    Sum(CallsIn(Build(x)), CallsOf(x), CallsIn(Build(y)), CallsOf(y), Loses(x), Loses(y));
    Dropped(Both(CallsOf(x), CallsOf(y)));
  }

  lemma NullTestCalls(op: Op, e: Expr)
    ensures CallsIn(PExprIsNull(op, e)) == CallsIn(e)
  {
    hide Both, CallsIn;
    Unary(op, e);
    Leaf(Bool(op == NOTNULL), false);
    if NonNullLiteral(Unsigned(e)) { Leaf(Unsigned(e).v, false); }
    UnsignedCalls(e);
  }

  lemma KeptNullTest(negated: bool, x: Src)
    requires Kept(x)
    ensures Kept(IsNull(negated, x))
  {
    hide Both, Exact, PExprIsNull;
    NullTestCalls(if negated then NOTNULL else ISNULL, Build(x));
  }

  lemma IsCalls(op: Op, x: Expr, y: Expr)
    ensures CallsIn(PExprIs(op, x, y)) == Both(CallsIn(x), CallsIn(y))
  {
    hide Both, PExprIsNull, CallsIn;
    Compared(op, x, y);
    Leaf(Null, false);
    BothEmpty(CallsIn(x));
    NullTestCalls(if op == IS then ISNULL else NOTNULL, x);
  }

  lemma KeptIs(negated: bool, x: Src, y: Src)
    requires Kept(x) && Kept(y)
    ensures Kept(Is(negated, x, y)) && Kept(Distinct(negated, x, y))
  {
    hide Both, Exact, PExprIs, CallsIn, CallsOf;
    IsSource(negated, x, y);
    Sum(CallsIn(Build(x)), CallsOf(x), CallsIn(Build(y)), CallsOf(y), Loses(x), Loses(y));
    IsCalls(IS, Build(x), Build(y));
    IsCalls(ISNOT, Build(x), Build(y));
  }

  lemma KeptBetween(negated: bool, x: Src, lo: Src, hi: Src)
    requires Kept(x) && Kept(lo) && Kept(hi)
    ensures Kept(Between(negated, x, lo, hi))
  {
    hide Both, Exact, Negated, CallsIn;
    Bounded(Build(x), Build(lo), Build(hi));
    NegatedCalls(negated, TkBetween(Build(x), Build(lo), Build(hi)));
    Sum(CallsIn(Build(lo)), CallsOf(lo), CallsIn(Build(hi)), CallsOf(hi), Loses(lo), Loses(hi));
    Sum(CallsIn(Build(x)), CallsOf(x), Both(CallsIn(Build(lo)), CallsIn(Build(hi))), Both(CallsOf(lo), CallsOf(hi)),
        Loses(x), Loses(lo) || Loses(hi));
  }

  lemma KeptList(f: Func, items: seq<Src>)
    requires Exact(CallsInAll(BuildAll(items)), CallsOfAll(items), LosesAny(items))
    ensures Kept(Vector(items)) && Kept(Call(f, items))
  {
    hide Both, Exact, CallsInAll, CallsOfAll, LosesAny;
    assert Exact(multiset{f}, multiset{f}, false) by { One(f); }
    Sum(multiset{f}, multiset{f}, CallsInAll(BuildAll(items)), CallsOfAll(items), false, LosesAny(items));
  }

  lemma One(f: Func)
    ensures Exact(multiset{f}, multiset{f}, false)
  {}

  // Unless the operand is deleted, the tree for IN has all calls.
  lemma InCalls(negated: bool, x: Expr, items: seq<Expr>)
    ensures CallsIn(InAction(negated, x, items)) ==
            if items == [] && !HasFunc(x) then multiset{} else Both(CallsIn(x), CallsInAll(items))
  {
    hide Both, HasFunc, IsConstant, CallsIn, Negated;
    Leaf(Null, negated);
    BothEmpty(CallsIn(x));
    assert CallsInAll([]) == multiset{};
    Listed(x, items);
    NegatedCalls(negated, TkIn(x, items));
    NegatedCalls(negated, TkInSelect(x, items));
    Binary(TkTrueFalse(negated), x);
    if |items| == 1 {
      NegatedCalls(negated, TkEq(x, TkUplus(items[0])));
      Compared(IS, x, TkUplus(items[0]));
      Unary(IS, items[0]);
      assert items[1..] == [];
      BothEmpty(CallsIn(items[0]));
    }
  }

  lemma InSource(negated: bool, x: Src, items: seq<Src>)
    ensures CallsOf(In(negated, x, items)) == Both(CallsOf(x), CallsOfAll(items))
  {
    hide Both;
  }

  lemma InLoses(negated: bool, x: Src, items: seq<Src>)
    ensures Loses(In(negated, x, items)) ==
            if InFolds(x, items) then CallsOf(In(negated, x, items)) != multiset{} else Loses(x) || LosesAny(items)
  {
    hide CallsOf;
  }

  lemma KeptIn(negated: bool, x: Src, items: seq<Src>)
    requires Kept(x) && Told(x) && Exact(CallsInAll(BuildAll(items)), CallsOfAll(items), LosesAny(items))
    ensures Kept(In(negated, x, items))
  {
    hide Both, Exact, InAction, CallsIn, CallsOf, Loses, HasFunc, Visible, CallsInAll, CallsOfAll, LosesAny;
    InSource(negated, x, items);
    InLoses(negated, x, items);
    InCalls(negated, Build(x), BuildAll(items));
    Sum(CallsIn(Build(x)), CallsOf(x), CallsInAll(BuildAll(items)), CallsOfAll(items), Loses(x), LosesAny(items));
    Dropped(Both(CallsOf(x), CallsOfAll(items)));
  }

  // Parsing adds no call, and keeps every one if and only if nothing that contains a
  // call is folded away.
  lemma {:induction false} CallsSurvive(s: Src)
    ensures CallsIn(Build(s)) <= CallsOf(s)
    ensures CallsIn(Build(s)) == CallsOf(s) <==> !Loses(s)
  {
    AllKept(s);
  }

  lemma {:induction false} AllKept(s: Src)
    ensures Kept(s)
    decreases s, 0
  {
    hide Both, Kept, Told, Exact;
    match s
    case Column(_) => KeptLeaf(s);
    case Literal(_) => KeptLeaf(s);
    case Call(f, args) => AllKeptList(args); KeptList(f, args);
    case Vector(items) => AllKeptList(items); KeptList(Func(0, false), items);
    case Sign(minus, x) => AllKept(x); KeptUnary(x, minus);
    case Not(x) => AllKept(x); KeptUnary(x, true);
    case And(x, y) => AllKept(x); AllKept(y); AllTold(x); AllTold(y); KeptAnd(x, y);
    case Or(x, y) => AllKept(x); AllKept(y); KeptBinary(x, y);
    case Equal(x, y) => AllKept(x); AllKept(y); KeptBinary(x, y);
    case IsNull(negated, x) => AllKept(x); KeptNullTest(negated, x);
    case Is(negated, x, y) => AllKept(x); AllKept(y); KeptIs(negated, x, y);
    case Distinct(negated, x, y) => AllKept(x); AllKept(y); KeptIs(negated, x, y);
    case Between(negated, x, lo, hi) => AllKept(x); AllKept(lo); AllKept(hi); KeptBetween(negated, x, lo, hi);
    case In(negated, x, items) => AllKept(x); AllTold(x); AllKeptList(items); KeptIn(negated, x, items);
  }

  lemma KeptLeaf(s: Src)
    requires s.Column? || s.Literal?
    ensures Kept(s)
  {}

  lemma {:induction false} AllKeptList(ss: seq<Src>)
    ensures Exact(CallsInAll(BuildAll(ss)), CallsOfAll(ss), LosesAny(ss))
    decreases ss, 1
  {
    hide Both, CallsIn, CallsOf, Loses, Build, Exact;
    if ss == [] {
      Dropped(multiset{});
    } else {
      AllKept(ss[0]);
      assert Exact(CallsIn(Build(ss[0])), CallsOf(ss[0]), Loses(ss[0]));
      AllKeptList(ss[1..]);
      var rest := BuildAll(ss[1..]);
      Sum(CallsIn(Build(ss[0])), CallsOf(ss[0]), CallsInAll(rest), CallsOfAll(ss[1..]), Loses(ss[0]),
          LosesAny(ss[1..]));
      assert BuildAll(ss)[1..] == rest;
    }
  }

  // ----- Where the flag is right ----------------------------------------------------------------

  // No call hides in a later item of a vector, in a bound of BETWEEN, or in a row that a
  // vector is compared with.
  predicate Open(s: Src) {
    match s
    case Column(_) => true
    case Literal(_) => true
    case Call(_, args) => OpenAll(args)
    case Vector(items) => OpenAll(items) && (items != [] ==> CallsOfAll(items[1..]) == multiset{})
    case Sign(_, x) => Open(x)
    case Not(x) => Open(x)
    case And(x, y) => Open(x) && Open(y)
    case Or(x, y) => Open(x) && Open(y)
    case Equal(x, y) => Open(x) && Open(y)
    case IsNull(_, x) => Open(x)
    case Is(_, x, y) => Open(x) && Open(y)
    case Distinct(_, x, y) => Open(x) && Open(y)
    case Between(_, x, lo, hi) => Open(x) && CallsOf(lo) == CallsOf(hi) == multiset{}
    case In(_, x, items) => Open(x) && OpenAll(items) && (x.Vector? ==> CallsOfAll(items) == multiset{})
  }

  predicate OpenAll(ss: seq<Src>) { ss == [] || (Open(ss[0]) && OpenAll(ss[1..])) }

  // Then the flag is up exactly when there is a call, and no call is lost.
  lemma {:induction false} OpenKeepsAll(s: Src)
    requires Open(s)
    ensures Visible(s) <==> CallsOf(s) != multiset{}
    ensures CallsIn(Build(s)) == CallsOf(s)
  {
    OpenIs(s);
    AllKept(s);
  }

  lemma {:induction false} OpenIs(s: Src)
    requires Open(s)
    ensures (Visible(s) <==> CallsOf(s) != multiset{}) && !Loses(s)
    decreases s, 0
  {
    match s
    case Column(_) =>
    case Literal(_) =>
    case Call(_, args) => OpenAllIs(args);
    case Vector(items) => OpenAllIs(items);
    case Sign(_, x) => OpenIs(x);
    case Not(x) => OpenIs(x);
    case And(x, y) => OpenIs(x); OpenIs(y);
    case Or(x, y) => OpenIs(x); OpenIs(y);
    case Equal(x, y) => OpenIs(x); OpenIs(y);
    case IsNull(_, x) => OpenIs(x);
    case Is(_, x, y) => OpenIs(x); OpenIs(y);
    case Distinct(_, x, y) => OpenIs(x); OpenIs(y);
    case Between(_, x, lo, hi) => OpenIs(x); NoCallsNoLoss(lo); NoCallsNoLoss(hi);
    case In(_, x, items) => OpenIs(x); OpenAllIs(items);
  }

  lemma {:induction false} OpenAllIs(ss: seq<Src>)
    requires OpenAll(ss)
    ensures (VisibleAny(ss) <==> CallsOfAll(ss) != multiset{}) && !LosesAny(ss)
    ensures ss != [] ==> (Visible(ss[0]) <==> CallsOf(ss[0]) != multiset{})
    decreases ss, 1
  {
    if ss != [] {
      OpenIs(ss[0]);
      OpenAllIs(ss[1..]);
    }
  }

  // What contains no call loses none.
  lemma {:induction false} NoCallsNoLoss(s: Src)
    requires CallsOf(s) == multiset{}
    ensures !Loses(s)
  {
    AllKept(s);
    assert CallsIn(Build(s)) == multiset{};
  }

  // ----- Calls that are lost ----------------------------------------------------------------------

  const COUNT := Call(Func(0, false), [])

  const ONE := Literal(Int(1))

  lemma Pair(x: Src, y: Src)
    ensures CallsOf(Vector([x, y])) == Both(CallsOf(x), CallsOf(y))
    ensures Visible(Vector([x, y])) == Visible(x)
  {
    assert [x, y][1..] == [y];
    assert CallsOfAll([y]) == Both(CallsOf(y), CallsOfAll([]));
  }

  lemma CountIs()
    ensures CallsOf(COUNT) == multiset{COUNT.f} && CallsOf(ONE) == multiset{}
    ensures !Visible(ONE)
  {}

  // A flagless operand of IN () is deleted.
  lemma EmptyInDrops(x: Src)
    requires !Visible(x)
    ensures Build(In(false, x, [])) == TkTrueFalse(false) && CallsOf(In(false, x, [])) == CallsOf(x)
  {
    hide HasFunc, Visible, CallsIn;
    assert BuildAll([]) == [] && CallsOfAll([]) == multiset{};
    AllTold(x);
  }

  // (1, count(*)) IN () becomes false.
  lemma LaterItemLost()
    ensures var s := In(false, Vector([ONE, COUNT]), []);
      Build(s) == TkTrueFalse(false) && CallsOf(s) == multiset{COUNT.f}
  {
    hide Build, CallsOf, Visible;
    CountIs();
    Pair(ONE, COUNT);
    EmptyInDrops(Vector([ONE, COUNT]));
  }

  lemma BoundHides()
    ensures var s := Between(false, ONE, ONE, COUNT); !Visible(s) && CallsOf(s) == multiset{COUNT.f}
  {
    CountIs();
  }

  // So does (1 BETWEEN 1 AND count(*)) IN ().
  lemma BoundLost()
    ensures var s := In(false, Between(false, ONE, ONE, COUNT), []);
      Build(s) == TkTrueFalse(false) && CallsOf(s) == multiset{COUNT.f}
  {
    hide Build, CallsOf, Visible;
    BoundHides();
    EmptyInDrops(Between(false, ONE, ONE, COUNT));
  }

  // ((1, 1) IN ((1, count(*)))) IN () does as well.
  lemma RowLost()
    ensures var s := In(false, In(false, Vector([ONE, ONE]), [Vector([ONE, COUNT])]), []);
      Build(s) == TkTrueFalse(false) && CallsOf(s) == multiset{COUNT.f}
  {
    hide Build, Visible, CallsOf;
    var rows := [Vector([ONE, COUNT])];
    var x := In(false, Vector([ONE, ONE]), rows);
    CountIs();
    Pair(ONE, ONE);
    Pair(ONE, COUNT);
    VisibleIn(false, Vector([ONE, ONE]), rows);
    assert CallsOfAll(rows) == Both(CallsOf(rows[0]), CallsOfAll([]));
    assert CallsOf(x) == Both(CallsOf(Vector([ONE, ONE])), CallsOfAll(rows)) by {
      InSource(false, Vector([ONE, ONE]), rows);
    }
    EmptyInDrops(x);
  }

  // 0 AND (1 BETWEEN 1 AND count(*)) becomes 0.
  lemma ConjunctLost()
    ensures var s := And(Literal(Int(0)), Between(false, ONE, ONE, COUNT));
      Build(s) == TkLiteral(Int(0)) && CallsOf(s) == multiset{COUNT.f}
  {
    BoundHides();
    AllTold(Between(false, ONE, ONE, COUNT));
  }
}
