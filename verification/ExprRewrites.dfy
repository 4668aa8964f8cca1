/** Expression rewrites made while parsing: the reduce actions for IS, IS NULL,
    signs, BETWEEN and IN simplify the tree they build, and the tree still means what
    was written, in three-valued logic and for every environment. */
module ExprRewrites {

  datatype Value = Null | Int(n: int) | Float(r: real) | Text(t: string) | Blob(b: string) | Row(vs: seq<Value>)

  // A function by number. deterministic: a known function that is neither an
  // aggregate nor a window function and gives the same result for the same
  // arguments.
  datatype Func = Func(id: int, deterministic: bool)

  // What an expression can depend on.  Comparison, negation and truth are left open,
  // up to the laws below.
  datatype Env = Env(
    column: int -> Value,
    call: (Func, seq<Value>) -> Value,
    eq: (Value, Value) -> bool,
    le: (Value, Value) -> bool,
    neg: Value -> Value,
    truth: Value -> bool)

  // Negation never makes or loses a NULL; 0 is false and 1 is true.
  ghost predicate Lawful(env: Env) {
    && env.neg(Null) == Null && (forall v :: v != Null ==> env.neg(v) != Null)
    && !env.truth(Int(0)) && env.truth(Int(1))
  }

  // ----- Three-valued operators -----------------------------------------------------------

  function Bool(b: bool): Value { Int(if b then 1 else 0) }

  predicate False(env: Env, v: Value) { v != Null && !env.truth(v) }

  function Not3(env: Env, v: Value): Value { if v == Null then Null else Bool(!env.truth(v)) }

  function And3(env: Env, v: Value, w: Value): Value {
    if False(env, v) || False(env, w) then Bool(false) else if v == Null || w == Null then Null else Bool(true)
  }

  function Or3(env: Env, v: Value, w: Value): Value { Not3(env, And3(env, Not3(env, v), Not3(env, w))) }

  function Eq3(env: Env, v: Value, w: Value): Value { if v == Null || w == Null then Null else Bool(env.eq(v, w)) }

  function Le3(env: Env, v: Value, w: Value): Value { if v == Null || w == Null then Null else Bool(env.le(v, w)) }

  // NULL is not distinct from NULL.
  predicate Same(env: Env, v: Value, w: Value) {
    if v == Null || w == Null then v == w else env.eq(v, w)
  }

  // Equal to a member, or unknown against one.
  function In3(env: Env, v: Value, ws: seq<Value>): Value {
    if exists k | 0 <= k < |ws| :: Eq3(env, v, ws[k]) == Bool(true) then Bool(true)
    else if exists k | 0 <= k < |ws| :: Eq3(env, v, ws[k]) == Null then Null
    else Bool(false)
  }

  // ----- What is written --------------------------------------------------------------------

  datatype Src =
    | Column(i: int)
    | Literal(v: Value)
    | Call(f: Func, args: seq<Src>)
    | Vector(items: seq<Src>)
    | Sign(minus: bool, x: Src)
    | Not(x: Src)
    | And(x: Src, y: Src)
    | Or(x: Src, y: Src)
    | Equal(x: Src, y: Src)
    | IsNull(negated: bool, x: Src)                  // ISNULL, NOTNULL, NOT NULL
    | Is(negated: bool, x: Src, y: Src)              // IS, IS NOT
    | Distinct(negated: bool, x: Src, y: Src)        // IS [NOT] DISTINCT FROM
    | Between(negated: bool, x: Src, lo: Src, hi: Src)
    | In(negated: bool, x: Src, items: seq<Src>)

  function Means(s: Src, env: Env): Value {
    match s
    case Column(i) => env.column(i)
    case Literal(v) => v
    case Call(f, args) => env.call(f, MeansAll(args, env))
    case Vector(items) => Row(MeansAll(items, env))
    case Sign(minus, x) => if minus then env.neg(Means(x, env)) else Means(x, env)
    case Not(x) => Not3(env, Means(x, env))
    case And(x, y) => And3(env, Means(x, env), Means(y, env))
    case Or(x, y) => Or3(env, Means(x, env), Means(y, env))
    case Equal(x, y) => Eq3(env, Means(x, env), Means(y, env))
    case IsNull(negated, x) => Bool((Means(x, env) == Null) != negated)
    case Is(negated, x, y) => Bool(Same(env, Means(x, env), Means(y, env)) != negated)
    case Distinct(negated, x, y) => Bool(!Same(env, Means(x, env), Means(y, env)) != negated)
    case Between(negated, x, lo, hi) =>
      var r := And3(env, Le3(env, Means(lo, env), Means(x, env)), Le3(env, Means(x, env), Means(hi, env)));
      if negated then Not3(env, r) else r
    case In(negated, x, items) =>
      var r := In3(env, Means(x, env), MeansAll(items, env));
      if negated then Not3(env, r) else r
  }

  function MeansAll(ss: seq<Src>, env: Env): (vs: seq<Value>)
    ensures |vs| == |ss|
  {
    if ss == [] then [] else [Means(ss[0], env)] + MeansAll(ss[1..], env)
  }

  // ----- What is built ----------------------------------------------------------------------

  datatype Op = ISNULL | NOTNULL | IS | ISNOT

  datatype Expr =
    | TkColumn(i: int)
    | TkLiteral(v: Value)                            // TK_INTEGER, TK_FLOAT, TK_STRING, TK_BLOB, TK_NULL
    | TkTrueFalse(b: bool)
    | TkFunction(f: Func, args: seq<Expr>)
    | TkVector(items: seq<Expr>)
    | TkUplus(left: Expr)
    | TkUminus(left: Expr)
    | TkNot(left: Expr)
    | TkAnd(left: Expr, right: Expr)
    | TkOr(left: Expr, right: Expr)
    | TkEq(left: Expr, right: Expr)
    | TkNullTest(op: Op, left: Expr)
    | TkIs(op: Op, left: Expr, right: Expr)
    | TkBetween(left: Expr, lo: Expr, hi: Expr)
    | TkIn(left: Expr, items: seq<Expr>)
    | TkInSelect(left: Expr, items: seq<Expr>)       // IN over VALUES rows

  function Eval(e: Expr, env: Env): Value {
    match e
    case TkColumn(i) => env.column(i)
    case TkLiteral(v) => v
    case TkTrueFalse(b) => Bool(b)
    case TkFunction(f, args) => env.call(f, EvalAll(args, env))
    case TkVector(items) => Row(EvalAll(items, env))
    case TkUplus(x) => Eval(x, env)
    case TkUminus(x) => env.neg(Eval(x, env))
    case TkNot(x) => Not3(env, Eval(x, env))
    case TkAnd(x, y) => And3(env, Eval(x, env), Eval(y, env))
    case TkOr(x, y) => Or3(env, Eval(x, env), Eval(y, env))
    case TkEq(x, y) => Eq3(env, Eval(x, env), Eval(y, env))
    case TkNullTest(op, x) => Bool((Eval(x, env) == Null) == (op == ISNULL))
    case TkIs(op, x, y) => Bool(Same(env, Eval(x, env), Eval(y, env)) == (op == IS))
    case TkBetween(x, lo, hi) =>
      And3(env, Le3(env, Eval(lo, env), Eval(x, env)), Le3(env, Eval(x, env), Eval(hi, env)))
    case TkIn(x, items) => In3(env, Eval(x, env), EvalAll(items, env))
    case TkInSelect(x, items) => In3(env, Eval(x, env), EvalAll(items, env))
  }

  function EvalAll(es: seq<Expr>, env: Env): (vs: seq<Value>)
    ensures |vs| == |es|
  {
    if es == [] then [] else [Eval(es[0], env)] + EvalAll(es[1..], env)
  }

  // The flag EP_HasFunc as the constructors set it. A node takes it over from its left
  // and right operands, and from the list of IN; but a vector only looks at its first
  // item, BETWEEN not at its bounds, and IN over VALUES not at the rows.
  predicate HasFunc(e: Expr) {
    match e
    case TkFunction(_, _) => true
    case TkColumn(_) => false
    case TkLiteral(_) => false
    case TkTrueFalse(_) => false
    case TkVector(items) => items != [] && HasFunc(items[0])
    case TkUplus(x) => HasFunc(x)
    case TkUminus(x) => HasFunc(x)
    case TkNot(x) => HasFunc(x)
    case TkAnd(x, y) => HasFunc(x) || HasFunc(y)
    case TkOr(x, y) => HasFunc(x) || HasFunc(y)
    case TkEq(x, y) => HasFunc(x) || HasFunc(y)
    case TkNullTest(_, x) => HasFunc(x)
    case TkIs(_, x, y) => HasFunc(x) || HasFunc(y)
    case TkBetween(x, _, _) => HasFunc(x)
    case TkIn(x, items) => HasFunc(x) || exists k | 0 <= k < |items| :: HasFunc(items[k])
    case TkInSelect(x, _) => HasFunc(x)
  }

  // The flag EP_IsFalse: set on a literal zero and on the constant false, and never
  // taken over by a parent.
  predicate IsFalse(e: Expr) {
    e == TkLiteral(Int(0)) || e == TkTrueFalse(false)
  }

  // sqlite3ExprIsConstant: no columns, no subqueries, only deterministic functions.
  predicate IsConstant(e: Expr) {
    match e
    case TkFunction(f, args) => f.deterministic && forall k | 0 <= k < |args| :: IsConstant(args[k])
    case TkColumn(_) => false
    case TkLiteral(_) => true
    case TkTrueFalse(_) => true
    case TkVector(items) => forall k | 0 <= k < |items| :: IsConstant(items[k])
    case TkUplus(x) => IsConstant(x)
    case TkUminus(x) => IsConstant(x)
    case TkNot(x) => IsConstant(x)
    case TkAnd(x, y) => IsConstant(x) && IsConstant(y)
    case TkOr(x, y) => IsConstant(x) && IsConstant(y)
    case TkEq(x, y) => IsConstant(x) && IsConstant(y)
    case TkNullTest(_, x) => IsConstant(x)
    case TkIs(_, x, y) => IsConstant(x) && IsConstant(y)
    case TkBetween(x, lo, hi) => IsConstant(x) && IsConstant(lo) && IsConstant(hi)
    case TkIn(x, items) => IsConstant(x) && forall k | 0 <= k < |items| :: IsConstant(items[k])
    case TkInSelect(_, _) => false
  }

  // ----- The reduce actions -----------------------------------------------------------------

  // The operand under its signs.
  function Unsigned(e: Expr): Expr {
    if e.TkUplus? || e.TkUminus? then Unsigned(e.left) else e
  }

  // A literal of one of the four non-null kinds.
  predicate NonNullLiteral(e: Expr) { e.TkLiteral? && (e.v.Int? || e.v.Float? || e.v.Text? || e.v.Blob?) }

  function PExprIsNull(op: Op, left: Expr): Expr {
    if NonNullLiteral(Unsigned(left)) then TkLiteral(Bool(op == NOTNULL)) else TkNullTest(op, left)
  }

  method BuildIsNull(op: Op, left: Expr) returns (r: Expr)
    requires op == ISNULL || op == NOTNULL
    ensures r == PExprIsNull(op, left)
  {
    var p := left;
    while p.TkUplus? || p.TkUminus?
      invariant Unsigned(p) == Unsigned(left)
      decreases p
    {
      p := p.left;
    }
    if NonNullLiteral(p) { return TkLiteral(Bool(op == NOTNULL)); }
    return TkNullTest(op, left);
  }

  function PExprIs(op: Op, left: Expr, right: Expr): Expr {
    if right == TkLiteral(Null) then PExprIsNull(if op == IS then ISNULL else NOTNULL, left)
    else TkIs(op, left, right)
  }

  // A sign before a unary plus takes its place.
  function SignAction(minus: bool, p: Expr): Expr {
    var x := if p.TkUplus? then p.left else p;
    if minus then TkUminus(x) else TkUplus(x)
  }

  function Negated(negated: bool, e: Expr): Expr { if negated then TkNot(e) else e }

  // sqlite3ExprAnd: a conjunction with a side that is known to be false is the
  // constant 0, unless a side is flagged to contain a function.
  function AndAction(x: Expr, y: Expr): Expr {
    if (IsFalse(x) || IsFalse(y)) && !HasFunc(x) && !HasFunc(y) then TkLiteral(Int(0)) else TkAnd(x, y)
  }

  function InAction(negated: bool, x: Expr, items: seq<Expr>): Expr {
    if items == [] then
      if !HasFunc(x) then TkTrueFalse(negated)
      else if negated then TkOr(TkTrueFalse(true), x)
      else TkAnd(TkTrueFalse(false), x)
    else if |items| == 1 && IsConstant(items[0]) && !x.TkVector? then
      Negated(negated, TkEq(x, TkUplus(items[0])))
    else if x.TkVector? then Negated(negated, TkInSelect(x, items))
    else Negated(negated, TkIn(x, items))
  }

  // The tree of a source expression, built from the leaves up.
  function Build(s: Src): Expr {
    match s
    case Column(i) => TkColumn(i)
    case Literal(v) => TkLiteral(v)
    case Call(f, args) => TkFunction(f, BuildAll(args))
    case Vector(items) => TkVector(BuildAll(items))
    case Sign(minus, x) => SignAction(minus, Build(x))
    case Not(x) => TkNot(Build(x))
    case And(x, y) => AndAction(Build(x), Build(y))
    case Or(x, y) => TkOr(Build(x), Build(y))
    case Equal(x, y) => TkEq(Build(x), Build(y))
    case IsNull(negated, x) => PExprIsNull(if negated then NOTNULL else ISNULL, Build(x))
    case Is(negated, x, y) => PExprIs(if negated then ISNOT else IS, Build(x), Build(y))
    case Distinct(negated, x, y) => PExprIs(if negated then IS else ISNOT, Build(x), Build(y))
    case Between(negated, x, lo, hi) => Negated(negated, TkBetween(Build(x), Build(lo), Build(hi)))
    case In(negated, x, items) => InAction(negated, Build(x), BuildAll(items))
  }

  function BuildAll(ss: seq<Src>): (es: seq<Expr>)
    ensures |es| == |ss|
  {
    if ss == [] then [] else [Build(ss[0])] + BuildAll(ss[1..])
  }

  // ----- Meaning is preserved ---------------------------------------------------------------

  lemma NegNull(env: Env, v: Value)
    requires Lawful(env)
    ensures env.neg(v) == Null <==> v == Null
  {}

  lemma TruthOfBool(env: Env, b: bool)
    requires Lawful(env)
    ensures env.truth(Bool(b)) == b
  {}

  // Signs neither make nor hide a NULL.
  lemma {:induction false} SignsKeepNull(e: Expr, env: Env)
    requires Lawful(env)
    ensures Eval(e, env) == Null <==> Eval(Unsigned(e), env) == Null
  {
    hide Lawful;
    if e.TkUplus? {
      SignsKeepNull(e.left, env);
    } else if e.TkUminus? {
      NegNull(env, Eval(e.left, env));
      SignsKeepNull(e.left, env);
    }
  }

  lemma IsNullMeans(op: Op, left: Expr, env: Env)
    requires Lawful(env) && (op == ISNULL || op == NOTNULL)
    ensures Eval(PExprIsNull(op, left), env) == Bool((Eval(left, env) == Null) == (op == ISNULL))
  {
    hide Lawful;
    SignsKeepNull(left, env);
  }

  lemma IsValue(op: Op, x: Expr, y: Expr, env: Env)
    ensures Eval(TkIs(op, x, y), env) == Bool(Same(env, Eval(x, env), Eval(y, env)) == (op == IS))
    ensures Eval(TkLiteral(Null), env) == Null
  {
    hide And3, Or3, Not3, Eq3, Le3, In3, Same, Bool;
  }

  lemma IsMeans(op: Op, left: Expr, right: Expr, env: Env)
    requires Lawful(env) && (op == IS || op == ISNOT)
    ensures Eval(PExprIs(op, left, right), env) == Bool(Same(env, Eval(left, env), Eval(right, env)) == (op == IS))
  {
    hide Lawful, PExprIsNull, Eval;
    IsValue(op, left, right, env);
    IsNullMeans(if op == IS then ISNULL else NOTNULL, left, env);
  }

  lemma In3One(env: Env, v: Value, w: Value)
    ensures In3(env, v, [w]) == Eq3(env, v, w)
  {
    var ws := [w];
    assert ws[0] == w;
    assert forall k | 0 <= k < |ws| :: ws[k] == w;
  }

  // Against no members nothing is equal and nothing unknown.
  lemma EmptyIn(negated: bool, x: Expr, env: Env)
    requires Lawful(env)
    ensures Eval(InAction(negated, x, []), env) == Bool(negated)
  {
    hide Lawful;
    TruthOfBool(env, false);
    TruthOfBool(env, true);
  }

  lemma InValue(x: Expr, items: seq<Expr>, env: Env)
    ensures Eval(TkIn(x, items), env) == In3(env, Eval(x, env), EvalAll(items, env))
    ensures Eval(TkInSelect(x, items), env) == In3(env, Eval(x, env), EvalAll(items, env))
  {
    hide And3, Or3, Not3, Eq3, Le3, In3, Same, Bool;
  }

  lemma EqualValue(x: Expr, y: Expr, env: Env)
    ensures Eval(TkEq(x, TkUplus(y)), env) == Eq3(env, Eval(x, env), Eval(y, env))
  {
    hide And3, Or3, Not3, Eq3, Le3, In3, Same, Bool;
    assert Eval(TkUplus(y), env) == Eval(y, env);
  }

  lemma NegatedValue(negated: bool, x: Expr, env: Env)
    ensures Eval(Negated(negated, x), env) == if negated then Not3(env, Eval(x, env)) else Eval(x, env)
  {}

  lemma InMeans(negated: bool, x: Expr, items: seq<Expr>, env: Env)
    requires Lawful(env)
    ensures var r := In3(env, Eval(x, env), EvalAll(items, env));
      Eval(InAction(negated, x, items), env) == if negated then Not3(env, r) else r
  {
    hide Lawful, IsConstant, HasFunc, In3, Eq3, Eval, Negated;
    var v, ws := Eval(x, env), EvalAll(items, env);
    if items == [] {
      EmptyIn(negated, x, env);
      NothingIn(env, v);
      TruthOfBool(env, false);
    } else {
      InValue(x, items, env);
      EqualValue(x, items[0], env);
      NegatedValue(negated, TkIn(x, items), env);
      NegatedValue(negated, TkInSelect(x, items), env);
      NegatedValue(negated, TkEq(x, TkUplus(items[0])), env);
      if |items| == 1 {
        assert ws == [Eval(items[0], env)];
        In3One(env, v, ws[0]);
      }
    }
  }

  lemma NothingIn(env: Env, v: Value)
    ensures In3(env, v, []) == Bool(false)
  {}

  lemma SignMeans(minus: bool, p: Expr, env: Env)
    ensures Eval(SignAction(minus, p), env) == if minus then env.neg(Eval(p, env)) else Eval(p, env)
  {}

  // The tree of s has the value of s.
  ghost predicate Faithful(s: Src, env: Env) { Eval(Build(s), env) == Means(s, env) }

  lemma PlainFaithful(x: Src, y: Src, env: Env)
    requires Faithful(x, env)
    ensures Faithful(Not(x), env)
    ensures Faithful(y, env) ==> Faithful(Or(x, y), env) && Faithful(Equal(x, y), env)
  {
    hide And3, Or3, Not3, Eq3, Le3, In3, Same, Bool;
  }

  // Folding a conjunction to 0 keeps its value.
  lemma AndMeans(x: Expr, y: Expr, env: Env)
    requires Lawful(env)
    ensures Eval(AndAction(x, y), env) == And3(env, Eval(x, env), Eval(y, env))
  {
    hide Lawful, Eval, IsFalse, HasFunc;
    TruthOfBool(env, false);
    AndValue(x, y, env);
    if IsFalse(x) { FalseValue(x, env); }
    if IsFalse(y) { FalseValue(y, env); }
  }

  lemma AndValue(x: Expr, y: Expr, env: Env)
    ensures Eval(TkAnd(x, y), env) == And3(env, Eval(x, env), Eval(y, env))
    ensures Eval(TkLiteral(Int(0)), env) == Bool(false)
  {
    hide And3, Or3, Not3, Eq3, Le3, In3, Same;
  }

  // What carries the flag is false.
  lemma FalseValue(x: Expr, env: Env)
    requires IsFalse(x)
    ensures Eval(x, env) == Bool(false)
  {
    hide And3, Or3, Not3, Eq3, Le3, In3, Same;
  }

  lemma AndFaithful(x: Src, y: Src, env: Env)
    requires Lawful(env) && Faithful(x, env) && Faithful(y, env)
    ensures Faithful(And(x, y), env)
  {
    hide Lawful, AndAction, And3, Or3, Not3, Eq3, Le3, In3, Same, Bool;
    AndMeans(Build(x), Build(y), env);
  }

  lemma ListFaithful(f: Func, args: seq<Src>, env: Env)
    requires EvalAll(BuildAll(args), env) == MeansAll(args, env)
    ensures Faithful(Call(f, args), env) && Faithful(Vector(args), env)
  {
    hide And3, Or3, Not3, Eq3, Le3, In3, Same, Bool;
  }

  lemma SignFaithful(minus: bool, x: Src, env: Env)
    requires Faithful(x, env)
    ensures Faithful(Sign(minus, x), env)
  {
    hide SignAction, And3, Or3, Not3, Eq3, Le3, In3, Same, Bool;
    SignMeans(minus, Build(x), env);
  }

  lemma IsNullFaithful(negated: bool, x: Src, env: Env)
    requires Lawful(env) && Faithful(x, env)
    ensures Faithful(IsNull(negated, x), env)
  {
    hide Lawful, PExprIsNull, And3, Or3, Not3, Eq3, Le3, In3, Same;
    IsNullMeans(if negated then NOTNULL else ISNULL, Build(x), env);
  }

  lemma IsFaithful(negated: bool, x: Src, y: Src, env: Env)
    requires Lawful(env) && Faithful(x, env) && Faithful(y, env)
    ensures Faithful(Is(negated, x, y), env) && Faithful(Distinct(negated, x, y), env)
  {
    hide Lawful, PExprIs, Same, And3, Or3, Not3, Eq3, Le3, In3;
    IsMeans(IS, Build(x), Build(y), env);
    IsMeans(ISNOT, Build(x), Build(y), env);
  }

  lemma BetweenFaithful(negated: bool, x: Src, lo: Src, hi: Src, env: Env)
    requires Faithful(x, env) && Faithful(lo, env) && Faithful(hi, env)
    ensures Faithful(Between(negated, x, lo, hi), env)
  {
    hide And3, Or3, Not3, Eq3, Le3, In3, Same, Bool, Negated;
    NegatedValue(negated, TkBetween(Build(x), Build(lo), Build(hi)), env);
  }

  lemma InFaithful(negated: bool, x: Src, items: seq<Src>, env: Env)
    requires Lawful(env) && Faithful(x, env) && EvalAll(BuildAll(items), env) == MeansAll(items, env)
    ensures Faithful(In(negated, x, items), env)
  {
    hide Lawful, InAction, And3, Or3, Not3, Eq3, Le3, In3, Same, Bool;
    InMeans(negated, Build(x), BuildAll(items), env);
  }

  // The tree built for an expression has the value of the expression as written.
  lemma {:induction false} BuildMeans(s: Src, env: Env)
    requires Lawful(env)
    ensures Faithful(s, env)
    decreases s, 0
  {
    hide Lawful, Build, Means, Eval, Faithful;
    match s
    case Column(_) => LeafFaithful(s, env);
    case Literal(_) => LeafFaithful(s, env);
    case Call(f, args) => BuildMeansAll(args, env); ListFaithful(f, args, env);
    case Vector(items) => BuildMeansAll(items, env); ListFaithful(Func(0, false), items, env);
    case Sign(minus, x) => BuildMeans(x, env); SignFaithful(minus, x, env);
    case Not(x) => BuildMeans(x, env); PlainFaithful(x, x, env);
    case And(x, y) => BuildMeans(x, env); BuildMeans(y, env); AndFaithful(x, y, env);
    case Or(x, y) => BuildMeans(x, env); BuildMeans(y, env); PlainFaithful(x, y, env);
    case Equal(x, y) => BuildMeans(x, env); BuildMeans(y, env); PlainFaithful(x, y, env);
    case IsNull(negated, x) => BuildMeans(x, env); IsNullFaithful(negated, x, env);
    case Is(negated, x, y) => BuildMeans(x, env); BuildMeans(y, env); IsFaithful(negated, x, y, env);
    case Distinct(negated, x, y) => BuildMeans(x, env); BuildMeans(y, env); IsFaithful(negated, x, y, env);
    case Between(negated, x, lo, hi) =>
      BuildMeans(x, env);
      BuildMeans(lo, env);
      BuildMeans(hi, env);
      BetweenFaithful(negated, x, lo, hi, env);
    case In(negated, x, items) =>
      BuildMeans(x, env);
      BuildMeansAll(items, env);
      InFaithful(negated, x, items, env);
  }

  lemma LeafFaithful(s: Src, env: Env)
    requires s.Column? || s.Literal?
    ensures Faithful(s, env)
  {}

  lemma {:induction false} BuildMeansAll(ss: seq<Src>, env: Env)
    requires Lawful(env)
    ensures EvalAll(BuildAll(ss), env) == MeansAll(ss, env)
    decreases ss, 1
  {
    hide Lawful, Eval, Means, Build;
    if ss != [] {
      BuildMeans(ss[0], env);
      assert Faithful(ss[0], env);
      BuildMeansAll(ss[1..], env);
    }
  }
}
