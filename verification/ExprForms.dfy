/** The rewrites are done wherever they apply: no tree the parser builds contains what
    they take away. */
module ExprForms {
  import opened ExprRewrites

  // No sign over a unary plus, no NULL test on a signed literal, no IS with NULL on the
  // right, no conjunction that is known to be false, no IN without members, with a
  // vector on the left, or with one constant.  The plus that IN with one constant puts
  // on it is the exception to the first.
  predicate Normal(e: Expr) {
    match e
    case TkColumn(_) => true
    case TkLiteral(_) => true
    case TkTrueFalse(_) => true
    case TkFunction(_, args) => NormalAll(args)
    case TkVector(items) => NormalAll(items)
    case TkUplus(x) => Normal(x) && !x.TkUplus?
    case TkUminus(x) => Normal(x) && !x.TkUplus?
    case TkNot(x) => Normal(x)
    case TkAnd(x, y) => Normal(x) && Normal(y) && (IsFalse(x) || IsFalse(y) ==> HasFunc(x) || HasFunc(y))
    case TkOr(x, y) => Normal(x) && Normal(y)
    case TkEq(x, y) => Normal(x) && (Normal(y) || (y.TkUplus? && Normal(y.left)))
    case TkNullTest(op, x) => Normal(x) && !NonNullLiteral(Unsigned(x)) && (op == ISNULL || op == NOTNULL)
    case TkIs(op, x, y) => Normal(x) && Normal(y) && y != TkLiteral(Null) && (op == IS || op == ISNOT)
    case TkBetween(x, lo, hi) => Normal(x) && Normal(lo) && Normal(hi)
    case TkIn(x, items) =>
      && Normal(x) && NormalAll(items) && items != [] && !x.TkVector?
      && (|items| == 1 ==> !IsConstant(items[0]))
    case TkInSelect(x, items) => Normal(x) && NormalAll(items) && items != [] && x.TkVector?
  }

  predicate NormalAll(es: seq<Expr>) { es == [] || (Normal(es[0]) && NormalAll(es[1..])) }

  lemma SignNormal(minus: bool, e: Expr)
    requires Normal(e)
    ensures Normal(SignAction(minus, e))
  {}

  lemma NullTestNormal(op: Op, e: Expr)
    requires Normal(e) && (op == ISNULL || op == NOTNULL)
    ensures Normal(PExprIsNull(op, e))
  {}

  lemma IsNormal(op: Op, x: Expr, y: Expr)
    requires Normal(x) && Normal(y) && (op == IS || op == ISNOT)
    ensures Normal(PExprIs(op, x, y))
  {
    hide PExprIsNull;
    NullTestNormal(if op == IS then ISNULL else NOTNULL, x);
  }

  lemma AndNormal(x: Expr, y: Expr)
    requires Normal(x) && Normal(y)
    ensures Normal(AndAction(x, y))
  {
    hide HasFunc, IsFalse;
  }

  lemma NegatedNormal(negated: bool, e: Expr)
    requires Normal(e)
    ensures Normal(Negated(negated, e))
  {}

  lemma InNormal(negated: bool, x: Expr, items: seq<Expr>)
    requires Normal(x) && NormalAll(items)
    ensures Normal(InAction(negated, x, items))
  {
    hide HasFunc, IsConstant, Negated;
    if items == [] {
      EmptyInNormal(negated, x);
    } else {
      assert Normal(items[0]);
      if |items| == 1 && IsConstant(items[0]) && !x.TkVector? {
        NegatedNormal(negated, TkEq(x, TkUplus(items[0])));
      } else if x.TkVector? {
        NegatedNormal(negated, TkInSelect(x, items));
      } else {
        NegatedNormal(negated, TkIn(x, items));
      }
    }
  }

  lemma EmptyInNormal(negated: bool, x: Expr)
    requires Normal(x)
    ensures Normal(InAction(negated, x, []))
  {
    hide HasFunc, IsConstant;
  }

  // Every tree is in this form.
  lemma {:induction false} BuildNormal(s: Src)
    ensures Normal(Build(s))
    decreases s, 0
  {
    hide Normal, SignAction, PExprIsNull, PExprIs, AndAction, InAction, Negated;
    match s
    case Column(_) => LeafNormal(s);
    case Literal(_) => LeafNormal(s);
    case Call(f, args) => BuildAllNormal(args); ListNormal(f, BuildAll(args));
    case Vector(items) => BuildAllNormal(items); ListNormal(Func(0, false), BuildAll(items));
    case Sign(minus, x) => BuildNormal(x); SignNormal(minus, Build(x));
    case Not(x) => BuildNormal(x); PlainNormal(Build(x), Build(x), Build(x));
    case And(x, y) => BuildNormal(x); BuildNormal(y); AndNormal(Build(x), Build(y));
    case Or(x, y) => BuildNormal(x); BuildNormal(y); PlainNormal(Build(x), Build(y), Build(y));
    case Equal(x, y) => BuildNormal(x); BuildNormal(y); PlainNormal(Build(x), Build(y), Build(y));
    case IsNull(negated, x) => BuildNormal(x); NullTestNormal(if negated then NOTNULL else ISNULL, Build(x));
    case Is(negated, x, y) =>
      BuildNormal(x);
      BuildNormal(y);
      IsNormal(if negated then ISNOT else IS, Build(x), Build(y));
    case Distinct(negated, x, y) =>
      BuildNormal(x);
      BuildNormal(y);
      IsNormal(if negated then IS else ISNOT, Build(x), Build(y));
    case Between(negated, x, lo, hi) =>
      BuildNormal(x);
      BuildNormal(lo);
      BuildNormal(hi);
      PlainNormal(Build(x), Build(lo), Build(hi));
      NegatedNormal(negated, TkBetween(Build(x), Build(lo), Build(hi)));
    case In(negated, x, items) => BuildNormal(x); BuildAllNormal(items); InNormal(negated, Build(x), BuildAll(items));
  }

  lemma LeafNormal(s: Src)
    requires s.Column? || s.Literal?
    ensures Normal(Build(s))
  {}

  lemma ListNormal(f: Func, es: seq<Expr>)
    requires NormalAll(es)
    ensures Normal(TkFunction(f, es)) && Normal(TkVector(es))
  {}

  lemma PlainNormal(x: Expr, y: Expr, z: Expr)
    requires Normal(x) && Normal(y) && Normal(z)
    ensures Normal(TkNot(x)) && Normal(TkOr(x, y)) && Normal(TkEq(x, y)) && Normal(TkBetween(x, y, z))
  {}

  lemma {:induction false} BuildAllNormal(ss: seq<Src>)
    ensures NormalAll(BuildAll(ss))
    decreases ss, 1
  {
    hide Normal, Build;
    if ss != [] {
      BuildNormal(ss[0]);
      BuildAllNormal(ss[1..]);
      assert BuildAll(ss)[1..] == BuildAll(ss[1..]);
    }
  }

  // ----- What counts as constant ---------------------------------------------------------

  // Written without columns, with deterministic functions only, and with no vector
  // compared with rows.
  predicate Steady(s: Src) {
    match s
    case Column(_) => false
    case Literal(_) => true
    case Call(f, args) => f.deterministic && SteadyAll(args)
    case Vector(items) => SteadyAll(items)
    case Sign(_, x) => Steady(x)
    case Not(x) => Steady(x)
    case And(x, y) => Steady(x) && Steady(y)
    case Or(x, y) => Steady(x) && Steady(y)
    case Equal(x, y) => Steady(x) && Steady(y)
    case IsNull(_, x) => Steady(x)
    case Is(_, x, y) => Steady(x) && Steady(y)
    case Distinct(_, x, y) => Steady(x) && Steady(y)
    case Between(_, x, lo, hi) => Steady(x) && Steady(lo) && Steady(hi)
    case In(_, x, items) => Steady(x) && SteadyAll(items) && !x.Vector?
  }

  predicate SteadyAll(ss: seq<Src>) { ss == [] || (Steady(ss[0]) && SteadyAll(ss[1..])) }

  // Such an expression is recognised as constant, ...
  lemma {:induction false} SteadyIsConstant(s: Src)
    requires Steady(s)
    ensures IsConstant(Build(s)) && (Build(s).TkVector? <==> s.Vector?)
    decreases s, 0
  {
    hide HasFunc, IsFalse, InAction, SignAction, AndAction, PExprIsNull, PExprIs, Negated;
    match s
    case Literal(_) =>
    case Call(_, args) => SteadyAllConstant(args);
    case Vector(items) => SteadyAllConstant(items);
    case Sign(minus, x) => SteadyIsConstant(x); FoldedConstant(minus, Build(x), Build(x));
    case Not(x) => SteadyIsConstant(x);
    case And(x, y) => SteadyIsConstant(x); SteadyIsConstant(y); FoldedConstant(true, Build(x), Build(y));
    case Or(x, y) => SteadyIsConstant(x); SteadyIsConstant(y);
    case Equal(x, y) => SteadyIsConstant(x); SteadyIsConstant(y);
    case IsNull(negated, x) =>
      SteadyIsConstant(x);
      NullTestConstant(if negated then NOTNULL else ISNULL, Build(x));
    case Is(negated, x, y) =>
      SteadyIsConstant(x);
      SteadyIsConstant(y);
      IsIsConstant(if negated then ISNOT else IS, Build(x), Build(y));
    case Distinct(negated, x, y) =>
      SteadyIsConstant(x);
      SteadyIsConstant(y);
      IsIsConstant(if negated then IS else ISNOT, Build(x), Build(y));
    case Between(negated, x, lo, hi) =>
      SteadyIsConstant(x);
      SteadyIsConstant(lo);
      SteadyIsConstant(hi);
      NegatedConstant(negated, TkBetween(Build(x), Build(lo), Build(hi)));
    case In(negated, x, items) =>
      SteadyIsConstant(x);
      SteadyAllConstant(items);
      InConstant(negated, Build(x), BuildAll(items));
  }

  lemma InConstant(negated: bool, x: Expr, items: seq<Expr>)
    requires IsConstant(x) && !x.TkVector? && forall k | 0 <= k < |items| :: IsConstant(items[k])
    ensures IsConstant(InAction(negated, x, items)) && !InAction(negated, x, items).TkVector?
  {
    hide HasFunc, Negated;
    NegatedConstant(negated, TkIn(x, items));
    if |items| == 1 {
      assert IsConstant(TkUplus(items[0]));
      NegatedConstant(negated, TkEq(x, TkUplus(items[0])));
    }
  }

  lemma NegatedConstant(negated: bool, e: Expr)
    ensures IsConstant(Negated(negated, e)) <==> IsConstant(e)
    ensures !e.TkVector? ==> !Negated(negated, e).TkVector?
  {}

  lemma FoldedConstant(minus: bool, x: Expr, y: Expr)
    requires IsConstant(x) && IsConstant(y)
    ensures IsConstant(SignAction(minus, x)) && IsConstant(AndAction(x, y))
    ensures !SignAction(minus, x).TkVector? && !AndAction(x, y).TkVector?
  {
    hide HasFunc, IsFalse;
  }

  lemma NullTestConstant(op: Op, x: Expr)
    requires IsConstant(x)
    ensures IsConstant(PExprIsNull(op, x)) && !PExprIsNull(op, x).TkVector?
  {
    hide NonNullLiteral, Unsigned;
  }

  lemma IsIsConstant(op: Op, x: Expr, y: Expr)
    requires IsConstant(x) && IsConstant(y)
    ensures IsConstant(PExprIs(op, x, y)) && !PExprIs(op, x, y).TkVector?
  {
    hide PExprIsNull;
    assert IsConstant(TkIs(op, x, y));
    NullTestConstant(if op == IS then ISNULL else NOTNULL, x);
  }

  lemma {:induction false} SteadyAllConstant(ss: seq<Src>)
    requires SteadyAll(ss)
    ensures forall k | 0 <= k < |ss| :: IsConstant(BuildAll(ss)[k])
    decreases ss, 1
  {
    hide HasFunc, IsConstant, Steady, Build;
    if ss != [] {
      SteadyIsConstant(ss[0]);
      SteadyAllConstant(ss[1..]);
      var es, rest := BuildAll(ss), BuildAll(ss[1..]);
      assert es[0] == Build(ss[0]) && es[1..] == rest;
      forall k | 0 <= k < |ss| ensures IsConstant(es[k]) {
        if k > 0 { assert es[k] == rest[k - 1]; }
      }
    }
  }

  // ... so that IN with it as the only member becomes a comparison.
  lemma OneConstantCompared(negated: bool, x: Src, c: Src)
    requires Steady(c) && !Build(x).TkVector?
    ensures Build(In(negated, x, [c])) == Negated(negated, TkEq(Build(x), TkUplus(Build(c))))
  {
    hide Steady, IsConstant, HasFunc;
    SteadyIsConstant(c);
    assert [c][1..] == [] && BuildAll([]) == [];
    assert BuildAll([c]) == [Build(c)];
  }

  // Rows may differ between these environments, and other functions.
  ghost predicate SameElsewhere(env: Env, other: Env) {
    && env.eq == other.eq && env.le == other.le && env.neg == other.neg && env.truth == other.truth
    && forall f: Func, vs: seq<Value> :: f.deterministic ==> env.call(f, vs) == other.call(f, vs)
  }

  lemma SameOperator(env: Env, other: Env, v: Value, w: Value)
    requires SameElsewhere(env, other)
    ensures And3(env, v, w) == And3(other, v, w) && Not3(env, v) == Not3(other, v)
    ensures Eq3(env, v, w) == Eq3(other, v, w) && Le3(env, v, w) == Le3(other, v, w)
    ensures Same(env, v, w) == Same(other, v, w)
  {}

  lemma SameOr(env: Env, other: Env, v: Value, w: Value)
    requires SameElsewhere(env, other)
    ensures Or3(env, v, w) == Or3(other, v, w)
  {
    hide SameElsewhere, And3, Not3;
    SameOperator(env, other, v, w);
    SameOperator(env, other, w, v);
    SameOperator(env, other, Not3(env, v), Not3(env, w));
    SameOperator(env, other, And3(env, Not3(env, v), Not3(env, w)), v);
  }

  lemma SameOperators(env: Env, other: Env)
    requires SameElsewhere(env, other)
    ensures forall v: Value, w: Value :: And3(env, v, w) == And3(other, v, w)
    ensures forall v: Value, w: Value :: Or3(env, v, w) == Or3(other, v, w)
    ensures forall v: Value :: Not3(env, v) == Not3(other, v)
    ensures forall v: Value, w: Value :: Eq3(env, v, w) == Eq3(other, v, w)
    ensures forall v: Value, w: Value :: Le3(env, v, w) == Le3(other, v, w)
    ensures forall v: Value, w: Value :: Same(env, v, w) == Same(other, v, w)
  {
    hide *;
    forall v: Value, w: Value
      ensures And3(env, v, w) == And3(other, v, w) && Or3(env, v, w) == Or3(other, v, w)
      ensures Eq3(env, v, w) == Eq3(other, v, w)
      ensures Le3(env, v, w) == Le3(other, v, w) && Same(env, v, w) == Same(other, v, w)
    {
      SameOperator(env, other, v, w);
      SameOr(env, other, v, w);
    }
    forall v: Value ensures Not3(env, v) == Not3(other, v) { SameOperator(env, other, v, v); }
  }

  predicate Hits(env: Env, v: Value, ws: seq<Value>, r: Value) { exists k | 0 <= k < |ws| :: Eq3(env, v, ws[k]) == r }

  lemma MembershipIs(env: Env, v: Value, ws: seq<Value>)
    ensures In3(env, v, ws) ==
            if Hits(env, v, ws, Bool(true)) then Bool(true) else if Hits(env, v, ws, Null) then Null else Bool(false)
  {
    if Hits(env, v, ws, Bool(true)) {
      var k :| 0 <= k < |ws| && Eq3(env, v, ws[k]) == Bool(true);
      assert In3(env, v, ws) == Bool(true);
    } else {
      assert forall k | 0 <= k < |ws| :: Eq3(env, v, ws[k]) != Bool(true);
      if Hits(env, v, ws, Null) {
        var k :| 0 <= k < |ws| && Eq3(env, v, ws[k]) == Null;
        assert In3(env, v, ws) == Null;
      } else {
        assert forall k | 0 <= k < |ws| :: Eq3(env, v, ws[k]) != Null;
      }
    }
  }

  lemma SameHits(env: Env, other: Env, v: Value, ws: seq<Value>, r: Value)
    requires SameElsewhere(env, other)
    ensures Hits(env, v, ws, r) <==> Hits(other, v, ws, r)
  {
    hide Eq3, SameElsewhere;
    forall k | 0 <= k < |ws| ensures Eq3(env, v, ws[k]) == Eq3(other, v, ws[k]) { SameOperator(env, other, v, ws[k]); }
  }

  lemma SameMembership(env: Env, other: Env, v: Value, ws: seq<Value>)
    requires SameElsewhere(env, other)
    ensures In3(env, v, ws) == In3(other, v, ws)
  {
    hide *;
    MembershipIs(env, v, ws);
    MembershipIs(other, v, ws);
    SameHits(env, other, v, ws, Bool(true));
    SameHits(env, other, v, ws, Null);
  }

  // What is recognised as constant has one value, whatever the row.
  lemma {:induction false} ConstantValue(e: Expr, env: Env, other: Env)
    requires IsConstant(e) && SameElsewhere(env, other)
    ensures Eval(e, env) == Eval(e, other)
  {
    SameOperators(env, other);
    hide And3, Or3, Not3, Eq3, Le3, In3, Same, Bool;
    match e
    case TkLiteral(_) =>
    case TkTrueFalse(_) =>
    case TkFunction(f, args) => ConstantValues(args, env, other);
    case TkVector(items) => ConstantValues(items, env, other);
    case TkUplus(x) => ConstantValue(x, env, other);
    case TkUminus(x) => ConstantValue(x, env, other);
    case TkNot(x) => ConstantValue(x, env, other);
    case TkAnd(x, y) => ConstantValue(x, env, other); ConstantValue(y, env, other);
    case TkOr(x, y) => ConstantValue(x, env, other); ConstantValue(y, env, other);
    case TkEq(x, y) => ConstantValue(x, env, other); ConstantValue(y, env, other);
    case TkNullTest(_, x) => ConstantValue(x, env, other);
    case TkIs(_, x, y) => ConstantValue(x, env, other); ConstantValue(y, env, other);
    case TkBetween(x, lo, hi) =>
      ConstantValue(x, env, other);
      ConstantValue(lo, env, other);
      ConstantValue(hi, env, other);
    case TkIn(x, items) =>
      ConstantValue(x, env, other);
      ConstantValues(items, env, other);
      SameMembership(env, other, Eval(x, env), EvalAll(items, env));
  }

  lemma {:induction false} ConstantValues(es: seq<Expr>, env: Env, other: Env)
    requires (forall k | 0 <= k < |es| :: IsConstant(es[k])) && SameElsewhere(env, other)
    ensures EvalAll(es, env) == EvalAll(es, other)
  {
    hide Eval, IsConstant, SameElsewhere;
    if es != [] {
      ConstantValue(es[0], env, other);
      ConstantValues(es[1..], env, other);
    }
  }
}
