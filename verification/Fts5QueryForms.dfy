/** Queries as a caller means them, how they are written, and what a parse tree says. */
module Fts5QueryForms {
  import opened Options
  import opened Fts5Tables
  import opened Fts5Grammar
  import opened Fts5Language

  datatype Term = Term(text: string, prefix: bool)

  // A phrase, a phrase at the start of a column, or phrases near each other.
  datatype Near =
    | Phrase(terms: seq<Term>)
    | Initial(terms: seq<Term>)
    | Within(phrases: seq<seq<Term>>, distance: Option<string>)

  // These columns, or all but these.
  datatype Columns = Columns(negated: bool, names: seq<string>)

  datatype Clause = Clause(columns: Option<Columns>, near: Near)

  // Clauses side by side are joined by an implicit AND.
  datatype Query =
    | Clauses(clauses: seq<Clause>)
    | Op(kind: int, left: Query, right: Query)
    | Filter(columns: Columns, sub: Query)

  predicate NearOk(n: Near) {
    match n
    case Phrase(terms) => terms != []
    case Initial(terms) => terms != []
    case Within(phrases, _) => phrases != [] && forall k | 0 <= k < |phrases| :: phrases[k] != []
  }

  predicate ClauseOk(c: Clause) { NearOk(c.near) && (c.columns.Some? ==> c.columns.value.names != []) }

  predicate WellFormed(q: Query) {
    match q
    case Clauses(cs) => cs != [] && forall k | 0 <= k < |cs| :: ClauseOk(cs[k])
    case Op(kind, l, r) => kind in {OR, AND, NOT} && WellFormed(l) && WellFormed(r)
    case Filter(columns, sub) => columns.names != [] && WellFormed(sub)
  }

  // ----- Writing a query ------------------------------------------------------------

  function Mark(kind: int): Token { Token(kind, "") }

  function Word(text: string): Token { Token(STRING, text) }

  function RenderTerm(t: Term): seq<Token> { [Word(t.text)] + if t.prefix then [Mark(STAR)] else [] }

  function RenderTerms(ts: seq<Term>): seq<Token>
    requires ts != []
  {
    var last := RenderTerm(ts[|ts| - 1]);
    if |ts| == 1 then last else RenderTerms(ts[..|ts| - 1]) + [Mark(PLUS)] + last
  }

  function RenderPhrases(ps: seq<seq<Term>>): seq<Token>
    requires forall k | 0 <= k < |ps| :: ps[k] != []
  {
    if ps == [] then [] else RenderPhrases(ps[..|ps| - 1]) + RenderTerms(ps[|ps| - 1])
  }

  function RenderDistance(d: Option<string>): seq<Token> {
    if d.Some? then [Mark(COMMA), Word(d.value)] else []
  }

  function RenderNear(n: Near): seq<Token>
    requires NearOk(n)
  {
    match n
    case Phrase(terms) => RenderTerms(terms)
    case Initial(terms) => [Mark(CARET)] + RenderTerms(terms)
    case Within(phrases, distance) =>
      [Word("NEAR")] + [Mark(LP)] + RenderPhrases(phrases) + RenderDistance(distance) + [Mark(RP)]
  }

  function RenderNames(names: seq<string>): seq<Token> {
    if names == [] then [] else RenderNames(names[..|names| - 1]) + [Word(names[|names| - 1])]
  }

  function RenderColumns(c: Columns): seq<Token> {
    (if c.negated then [Mark(MINUS)] else [])
    + if |c.names| == 1 then [Word(c.names[0])] else [Mark(LCP)] + RenderNames(c.names) + [Mark(RCP)]
  }

  function RenderClause(c: Clause): seq<Token>
    requires ClauseOk(c)
  {
    if c.columns.Some? then RenderColumns(c.columns.value) + [Mark(COLON)] + RenderNear(c.near) else RenderNear(c.near)
  }

  function RenderClauses(cs: seq<Clause>): seq<Token>
    requires forall k | 0 <= k < |cs| :: ClauseOk(cs[k])
  {
    if cs == [] then [] else RenderClauses(cs[..|cs| - 1]) + RenderClause(cs[|cs| - 1])
  }

  function Render(q: Query): seq<Token>
    requires WellFormed(q)
    decreases q, 0
  {
    match q
    case Clauses(cs) => RenderClauses(cs)
    case Op(kind, l, r) => RenderOperand(l) + [Mark(kind)] + RenderOperand(r)
    case Filter(columns, sub) => RenderColumns(columns) + [Mark(COLON)] + [Mark(LP)] + Render(sub) + [Mark(RP)]
  }

  // An operand of an operator is parenthesised when it is itself an operator.
  function RenderOperand(q: Query): seq<Token>
    requires WellFormed(q)
    decreases q, 1
  {
    if q.Op? then [Mark(LP)] + Render(q) + [Mark(RP)] else Render(q)
  }

  // ----- What a tree says -------------------------------------------------------------

  function Text(t: Tree): string { if t.Leaf? then t.tok.text else "" }

  // Node r with n children.
  predicate By(t: Tree, r: int, n: nat) { t.Node? && t.rule == r && |t.kids| == n }

  function TermsOf(t: Tree): seq<Term> {
    if By(t, 24, 4) then TermsOf(t.kids[0]) + [Term(Text(t.kids[2]), By(t.kids[3], 26, 1))]
    else if By(t, 25, 2) then [Term(Text(t.kids[0]), By(t.kids[1], 26, 1))]
    else []
  }

  function PhrasesOf(t: Tree): seq<seq<Term>> {
    if By(t, 21, 2) then PhrasesOf(t.kids[0]) + [TermsOf(t.kids[1])]
    else if By(t, 20, 1) then [TermsOf(t.kids[0])]
    else []
  }

  function NearOf(t: Tree): Near {
    if By(t, 19, 5) then
      Within(PhrasesOf(t.kids[2]), if By(t.kids[3], 23, 2) then Some(Text(t.kids[3].kids[1])) else None)
    else if By(t, 18, 2) then Initial(TermsOf(t.kids[1]))
    else if By(t, 17, 1) then Phrase(TermsOf(t.kids[0]))
    else Phrase([])
  }

  function NamesOf(t: Tree): seq<string> {
    if By(t, 5, 2) then NamesOf(t.kids[0]) + [Text(t.kids[1])]
    else if By(t, 6, 1) then [Text(t.kids[0])]
    else []
  }

  function ColumnsOf(t: Tree): Columns {
    if By(t, 1, 4) then Columns(true, NamesOf(t.kids[2]))
    else if By(t, 2, 3) then Columns(false, NamesOf(t.kids[1]))
    else if By(t, 3, 1) then Columns(false, [Text(t.kids[0])])
    else if By(t, 4, 2) then Columns(true, [Text(t.kids[1])])
    else Columns(false, [])
  }

  function ClauseOf(t: Tree): Clause {
    if By(t, 16, 3) then Clause(Some(ColumnsOf(t.kids[0])), NearOf(t.kids[2]))
    else if By(t, 15, 1) then Clause(None, NearOf(t.kids[0]))
    else Clause(None, Phrase([]))
  }

  function ClausesOf(t: Tree): seq<Clause> {
    if By(t, 14, 2) then ClausesOf(t.kids[0]) + [ClauseOf(t.kids[1])]
    else if By(t, 13, 1) then [ClauseOf(t.kids[0])]
    else []
  }

  function QueryOf(t: Tree): Query {
    if By(t, 0, 1) then QueryOf(t.kids[0])
    else if By(t, 7, 3) then Op(AND, QueryOf(t.kids[0]), QueryOf(t.kids[2]))
    else if By(t, 8, 3) then Op(OR, QueryOf(t.kids[0]), QueryOf(t.kids[2]))
    else if By(t, 9, 3) then Op(NOT, QueryOf(t.kids[0]), QueryOf(t.kids[2]))
    else if By(t, 10, 5) then Filter(ColumnsOf(t.kids[0]), QueryOf(t.kids[3]))
    else if By(t, 11, 3) then QueryOf(t.kids[1])
    else if By(t, 12, 1) then Clauses(ClausesOf(t.kids[0]))
    else Clauses([])
  }

  // ----- The tree of a query ------------------------------------------------------------

  function StarTree(prefix: bool): Tree { if prefix then Node(26, [Leaf(Mark(STAR))]) else Node(27, []) }

  function PhraseTree(ts: seq<Term>): Tree
    requires ts != []
  {
    var last := ts[|ts| - 1];
    if |ts| == 1 then Node(25, [Leaf(Word(last.text)), StarTree(last.prefix)])
    else Node(24, [PhraseTree(ts[..|ts| - 1]), Leaf(Mark(PLUS)), Leaf(Word(last.text)), StarTree(last.prefix)])
  }

  function PhrasesTree(ps: seq<seq<Term>>): Tree
    requires ps != [] && forall k | 0 <= k < |ps| :: ps[k] != []
  {
    var last := PhraseTree(ps[|ps| - 1]);
    if |ps| == 1 then Node(20, [last]) else Node(21, [PhrasesTree(ps[..|ps| - 1]), last])
  }

  function DistanceTree(d: Option<string>): Tree {
    if d.Some? then Node(23, [Leaf(Mark(COMMA)), Leaf(Word(d.value))]) else Node(22, [])
  }

  function NearTree(n: Near): Tree
    requires NearOk(n)
  {
    match n
    case Phrase(terms) => Node(17, [PhraseTree(terms)])
    case Initial(terms) => Node(18, [Leaf(Mark(CARET)), PhraseTree(terms)])
    case Within(phrases, distance) =>
      Node(19, [Leaf(Word("NEAR")), Leaf(Mark(LP)), PhrasesTree(phrases), DistanceTree(distance), Leaf(Mark(RP))])
  }

  function NamesTree(names: seq<string>): Tree
    requires names != []
  {
    var last := Leaf(Word(names[|names| - 1]));
    if |names| == 1 then Node(6, [last]) else Node(5, [NamesTree(names[..|names| - 1]), last])
  }

  function ColumnsTree(c: Columns): Tree
    requires c.names != []
  {
    if |c.names| == 1 then
      var name := Leaf(Word(c.names[0]));
      if c.negated then Node(4, [Leaf(Mark(MINUS)), name]) else Node(3, [name])
    else
      var names := NamesTree(c.names);
      if c.negated then Node(1, [Leaf(Mark(MINUS)), Leaf(Mark(LCP)), names, Leaf(Mark(RCP))])
      else Node(2, [Leaf(Mark(LCP)), names, Leaf(Mark(RCP))])
  }

  function ClauseTree(c: Clause): Tree
    requires ClauseOk(c)
  {
    var near := NearTree(c.near);
    if c.columns.Some? then Node(16, [ColumnsTree(c.columns.value), Leaf(Mark(COLON)), near]) else Node(15, [near])
  }

  function ClausesTree(cs: seq<Clause>): Tree
    requires cs != [] && forall k | 0 <= k < |cs| :: ClauseOk(cs[k])
  {
    var last := ClauseTree(cs[|cs| - 1]);
    if |cs| == 1 then Node(13, [last]) else Node(14, [ClausesTree(cs[..|cs| - 1]), last])
  }

  function Wrap(t: Tree): Tree { Node(11, [Leaf(Mark(LP)), t, Leaf(Mark(RP))]) }

  function TreeOf(q: Query): Tree
    requires WellFormed(q)
    decreases q, 0
  {
    match q
    case Clauses(cs) => Node(12, [ClausesTree(cs)])
    case Op(kind, l, r) => Binary(OperandTree(l), Leaf(Mark(kind)), OperandTree(r))
    case Filter(columns, sub) =>
      Node(10, [ColumnsTree(columns), Leaf(Mark(COLON)), Leaf(Mark(LP)), TreeOf(sub), Leaf(Mark(RP))])
  }

  function OperandTree(q: Query): Tree
    requires WellFormed(q)
    decreases q, 1
  {
    if q.Op? then Wrap(TreeOf(q)) else TreeOf(q)
  }

  // ----- The stack entries a query needs -------------------------------------------------

  function Depth(q: Query): nat {
    match q
    case Clauses(_) => 0
    case Op(_, l, r) => 1 + if Depth(l) < Depth(r) then Depth(r) else Depth(l)
    case Filter(_, sub) => 1 + Depth(sub)
  }

  // Made of single phrases.
  predicate Plain(q: Query) {
    match q
    case Clauses(cs) => |cs| == 1 && cs[0].columns.None? && cs[0].near.Phrase?
    case Op(_, l, r) => Plain(l) && Plain(r)
    case Filter(_, sub) => Plain(sub)
  }

  function Room(q: Query): nat { (if Plain(q) then 4 else 10) + 3 * Depth(q) }
}
