/** The round trip: every query, written out with parenthesised operands, is parsed
    back to itself if the stack has room, and never is a syntax error. */
module Fts5Queries {
  import opened Options
  import opened Fts5Tables
  import opened Fts5Grammar
  import opened Fts5Machine
  import opened Fts5Driver
  import opened Fts5Complete
  import opened Fts5Language
  import opened Fts5QueryForms

  // ----- Nodes ----------------------------------------------------------------------

  // A tree for symbol x that respects precedence, is read within n stack entries and
  // spells toks.
  predicate Builds(t: Tree, x: int, n: nat, toks: seq<Token>) {
    && Valid(t) && Resolved(t) && Root(t) == x && Need(t) <= n && Yield(t) == toks && (x != EXPR ==> Level(t) == 4)
  }

  lemma LeafBuilds(tok: Token)
    requires 0 < tok.kind < YYNTOKEN
    ensures Builds(Leaf(tok), tok.kind, 1, [tok])
  {}

  lemma Fewer(t: Tree, x: int, n: nat, m: nat, toks: seq<Token>)
    requires Builds(t, x, n, toks) && n <= m
    ensures Builds(t, x, m, toks)
  {}

  // A node of a rule that is no operator is good if its children are.
  lemma NodeGood(r: int, kids: seq<Tree>)
    requires 0 <= r < YYNRULE && RuleLevel(r) == 4 && |kids| == |Rhs(r)|
    requires forall j | 0 <= j < |kids| :: Valid(kids[j]) && Resolved(kids[j]) && Root(kids[j]) == Rhs(r)[j]
    ensures var t := Node(r, kids); Valid(t) && Resolved(t) && Root(t) == Lhs(r) && Level(t) == 4
  {
    hide Rhs, Lhs;
    MakeNode(r, kids);
  }

  lemma OneKid(r: int, a: Tree)
    ensures Yield(Node(r, [a])) == Yield(a) && Need(Node(r, [a])) == Need(a)
  {
    YieldsOne(a);
    assert NeedFrom([a], 1) == 0;
  }

  lemma TwoKids(r: int, a: Tree, b: Tree)
    ensures Yield(Node(r, [a, b])) == Yield(a) + Yield(b)
    ensures Need(Node(r, [a, b])) == Max(Need(a), 1 + Need(b))
  {
    var ks := [a, b];
    YieldsConcat([a], [b]);
    YieldsOne(a);
    YieldsOne(b);
    assert [a] + [b] == ks;
    assert NeedFrom(ks, 2) == 0;
    assert NeedFrom(ks, 1) == 1 + Need(b);
  }

  lemma ThreeKids(r: int, a: Tree, b: Tree, c: Tree)
    ensures Yield(Node(r, [a, b, c])) == Yield(a) + Yield(b) + Yield(c)
    ensures Need(Node(r, [a, b, c])) == Max(Need(a), Max(1 + Need(b), 2 + Need(c)))
  {
    var ks := [a, b, c];
    YieldThree(Node(r, ks));
    assert NeedFrom(ks, 3) == 0;
    assert NeedFrom(ks, 2) == 2 + Need(c);
    assert NeedFrom(ks, 1) == Max(1 + Need(b), 2 + Need(c));
  }

  lemma FourKids(r: int, a: Tree, b: Tree, c: Tree, d: Tree)
    ensures Yield(Node(r, [a, b, c, d])) == Yield(a) + Yield(b) + Yield(c) + Yield(d)
    ensures Need(Node(r, [a, b, c, d])) == Max(Need(a), Max(1 + Need(b), Max(2 + Need(c), 3 + Need(d))))
  {
    var ks := [a, b, c, d];
    YieldsConcat([a, b, c], [d]);
    YieldThree(Node(r, [a, b, c]));
    YieldsOne(d);
    assert [a, b, c] + [d] == ks;
    assert NeedFrom(ks, 4) == 0;
    assert NeedFrom(ks, 3) == 3 + Need(d);
    assert NeedFrom(ks, 2) == Max(2 + Need(c), 3 + Need(d));
    assert NeedFrom(ks, 1) == Max(1 + Need(b), NeedFrom(ks, 2));
  }

  lemma FiveKids(r: int, a: Tree, b: Tree, c: Tree, d: Tree, e: Tree)
    ensures Yield(Node(r, [a, b, c, d, e])) == Yield(a) + Yield(b) + Yield(c) + Yield(d) + Yield(e)
    ensures Need(Node(r, [a, b, c, d, e])) ==
      Max(Need(a), Max(1 + Need(b), Max(2 + Need(c), Max(3 + Need(d), 4 + Need(e)))))
  {
    var ks := [a, b, c, d, e];
    FourKids(r, a, b, c, d);
    YieldsConcat([a, b, c, d], [e]);
    YieldsOne(e);
    assert [a, b, c, d] + [e] == ks;
    assert NeedFrom(ks, 5) == 0;
    assert NeedFrom(ks, 4) == 4 + Need(e);
    assert NeedFrom(ks, 3) == Max(3 + Need(d), 4 + Need(e));
    assert NeedFrom(ks, 2) == Max(2 + Need(c), NeedFrom(ks, 3));
    assert NeedFrom(ks, 1) == Max(1 + Need(b), NeedFrom(ks, 2));
  }

  // The same for whole nodes, by the number of children.
  lemma Build1(r: int, a: Tree, x: int, n: nat, ta: seq<Token>)
    requires 0 <= r < YYNRULE && RuleLevel(r) == 4 && Rhs(r) == [x] && Builds(a, x, n, ta)
    ensures Builds(Node(r, [a]), Lhs(r), n, ta)
  {
    hide Valid, Resolved, Need, Yield, Rhs, Lhs, Root, Level;
    OneKid(r, a);
    NodeGood(r, [a]);
  }

  lemma Build2(r: int, a: Tree, x: int, n: nat, ta: seq<Token>, b: Tree, y: int, m: nat, tb: seq<Token>)
    requires 0 <= r < YYNRULE && RuleLevel(r) == 4 && Rhs(r) == [x, y] && Builds(a, x, n, ta) && Builds(b, y, m, tb)
    ensures Builds(Node(r, [a, b]), Lhs(r), Max(n, 1 + m), ta + tb)
  {
    hide Valid, Resolved, Need, Yield, Rhs, Lhs, Root, Level;
    TwoKids(r, a, b);
    NodeGood(r, [a, b]);
  }

  lemma Build3(r: int, a: Tree, x: int, n: nat, ta: seq<Token>, b: Tree, y: int, m: nat, tb: seq<Token>,
    c: Tree, z: int, k: nat, tc: seq<Token>)
    requires 0 <= r < YYNRULE && RuleLevel(r) == 4 && Rhs(r) == [x, y, z]
    requires Builds(a, x, n, ta) && Builds(b, y, m, tb) && Builds(c, z, k, tc)
    ensures Builds(Node(r, [a, b, c]), Lhs(r), Max(n, Max(1 + m, 2 + k)), ta + tb + tc)
  {
    hide Valid, Resolved, Need, Yield, Rhs, Lhs, Root, Level;
    ThreeKids(r, a, b, c);
    NodeGood(r, [a, b, c]);
  }

  // ----- Phrases ------------------------------------------------------------------------

  lemma StarBuilds(prefix: bool)
    ensures Builds(StarTree(prefix), STAR_OPT, 1, if prefix then [Mark(STAR)] else [])
    ensures By(StarTree(prefix), 26, 1) <==> prefix
  {
    YieldsOne(Leaf(Mark(STAR)));
  }

  predicate PhraseBuilds(t: Tree, ts: seq<Term>)
    requires ts != []
  {
    Builds(t, PHRASE, 4, RenderTerms(ts)) && TermsOf(t) == ts
  }

  lemma OneTerm(x: Term)
    ensures PhraseBuilds(PhraseTree([x]), [x])
  {
    hide Builds, StarTree, Lhs, Rhs;
    var word, star := Leaf(Word(x.text)), StarTree(x.prefix);
    LeafBuilds(Word(x.text));
    StarBuilds(x.prefix);
    PhraseRules();
    Build2(25, word, STRING, 1, [Word(x.text)], star, STAR_OPT, 1, if x.prefix then [Mark(STAR)] else []);
    Fewer(Node(25, [word, star]), PHRASE, 2, 4, RenderTerm(x));
  }

  lemma PhraseRules()
    ensures Rhs(25) == [STRING, STAR_OPT] && Lhs(25) == PHRASE
    ensures Rhs(24) == [PHRASE, PLUS, STRING, STAR_OPT] && Lhs(24) == PHRASE
  {}

  lemma TermsStep(t: Tree, text: string, star: Tree)
    ensures TermsOf(Node(24, [t, Leaf(Mark(PLUS)), Leaf(Word(text)), star])) ==
            TermsOf(t) + [Term(text, By(star, 26, 1))]
  {}

  lemma RenderMore(ts: seq<Term>, x: Term)
    requires ts != []
    ensures RenderTerms(ts + [x]) ==
            RenderTerms(ts) + [Mark(PLUS)] + [Word(x.text)] + (if x.prefix then [Mark(STAR)] else [])
  {
    assert (ts + [x])[..|ts|] == ts;
  }

  lemma MoreTerms(t: Tree, ts: seq<Term>, x: Term)
    requires ts != [] && PhraseBuilds(t, ts)
    ensures PhraseBuilds(Node(24, [t, Leaf(Mark(PLUS)), Leaf(Word(x.text)), StarTree(x.prefix)]), ts + [x])
  {
    hide Valid, Resolved, Root, Need, Yield, StarTree, Lhs, Rhs, TermsOf, RenderTerms, Level, By;
    var plus, word, star := Leaf(Mark(PLUS)), Leaf(Word(x.text)), StarTree(x.prefix);
    LeafBuilds(Mark(PLUS));
    LeafBuilds(Word(x.text));
    StarBuilds(x.prefix);
    PhraseRules();
    NodeGood(24, [t, plus, word, star]);
    FourKids(24, t, plus, word, star);
    TermsStep(t, x.text, star);
    RenderMore(ts, x);
  }

  lemma {:induction false} PhraseIs(ts: seq<Term>)
    requires ts != []
    ensures PhraseBuilds(PhraseTree(ts), ts)
  {
    hide PhraseBuilds;
    if |ts| == 1 {
      OneTerm(ts[0]);
      assert ts == [ts[0]];
    } else {
      var rest, last := ts[..|ts| - 1], ts[|ts| - 1];
      PhraseIs(rest);
      MoreTerms(PhraseTree(rest), rest, last);
      assert ts == rest + [last];
    }
  }

  // ----- Phrases near each other ------------------------------------------------------------

  predicate PhrasesBuild(t: Tree, ps: seq<seq<Term>>)
    requires forall k | 0 <= k < |ps| :: ps[k] != []
  {
    Builds(t, NEARPHRASES, 5, RenderPhrases(ps)) && PhrasesOf(t) == ps
  }

  lemma OnePhrase(p: Tree, ts: seq<Term>)
    requires ts != [] && PhraseBuilds(p, ts)
    ensures PhrasesBuild(Node(20, [p]), [ts])
  {
    hide Builds, RenderTerms, TermsOf, Lhs, Rhs;
    NearRules();
    Build1(20, p, PHRASE, 4, RenderTerms(ts));
    Fewer(Node(20, [p]), NEARPHRASES, 4, 5, RenderTerms(ts));
    assert [ts][..0] == [] && RenderPhrases([]) == [];
    assert [] + RenderTerms(ts) == RenderTerms(ts);
  }

  lemma NearRules()
    ensures Rhs(20) == [PHRASE] && Lhs(20) == NEARPHRASES && Rhs(21) == [NEARPHRASES, PHRASE] && Lhs(21) == NEARPHRASES
    ensures Rhs(22) == [] && Lhs(22) == NEARDIST_OPT && Rhs(23) == [COMMA, STRING] && Lhs(23) == NEARDIST_OPT
    ensures Rhs(17) == [PHRASE] && Lhs(17) == NEARSET && Rhs(18) == [CARET, PHRASE] && Lhs(18) == NEARSET
    ensures Rhs(19) == [STRING, LP, NEARPHRASES, NEARDIST_OPT, RP] && Lhs(19) == NEARSET
  {}

  lemma MorePhrases(t: Tree, ps: seq<seq<Term>>, p: Tree, ts: seq<Term>)
    requires ts != [] && (forall k | 0 <= k < |ps| :: ps[k] != []) && PhrasesBuild(t, ps) && PhraseBuilds(p, ts)
    ensures PhrasesBuild(Node(21, [t, p]), ps + [ts])
  {
    hide Builds, RenderTerms, TermsOf, Lhs, Rhs;
    NearRules();
    Build2(21, t, NEARPHRASES, 5, RenderPhrases(ps), p, PHRASE, 4, RenderTerms(ts));
    assert (ps + [ts])[..|ps|] == ps;
  }

  lemma {:induction false} PhrasesIs(ps: seq<seq<Term>>)
    requires ps != [] && forall k | 0 <= k < |ps| :: ps[k] != []
    ensures PhrasesBuild(PhrasesTree(ps), ps)
  {
    hide PhraseBuilds, PhrasesBuild;
    var rest, last := ps[..|ps| - 1], ps[|ps| - 1];
    PhraseIs(last);
    assert ps == rest + [last];
    if |ps| == 1 {
      OnePhrase(PhraseTree(last), last);
      assert ps == [last];
    } else {
      PhrasesIs(rest);
      MorePhrases(PhrasesTree(rest), rest, PhraseTree(last), last);
    }
  }

  lemma DistanceBuilds(d: Option<string>)
    ensures Builds(DistanceTree(d), NEARDIST_OPT, 2, RenderDistance(d))
    ensures d == if By(DistanceTree(d), 23, 2) then Some(Text(DistanceTree(d).kids[1])) else None
  {
    NearRules();
    if d.Some? {
      LeafBuilds(Mark(COMMA));
      LeafBuilds(Word(d.value));
      Build2(23, Leaf(Mark(COMMA)), COMMA, 1, [Mark(COMMA)], Leaf(Word(d.value)), STRING, 1, [Word(d.value)]);
    } else {
      NodeGood(22, []);
    }
  }

  function NearNeed(n: Near): nat { if n.Phrase? then 4 else 7 }

  predicate NearBuilds(t: Tree, n: Near)
    requires NearOk(n)
  {
    Builds(t, NEARSET, NearNeed(n), RenderNear(n)) && NearOf(t) == n
  }

  lemma InitialIs(terms: seq<Term>)
    requires terms != []
    ensures NearBuilds(NearTree(Phrase(terms)), Phrase(terms)) && NearBuilds(NearTree(Initial(terms)), Initial(terms))
  {
    hide Builds, RenderTerms, TermsOf, Lhs, Rhs, PhraseTree;
    PhraseIs(terms);
    NearRules();
    LeafBuilds(Mark(CARET));
    var p := PhraseTree(terms);
    Build1(17, p, PHRASE, 4, RenderTerms(terms));
    Build2(18, Leaf(Mark(CARET)), CARET, 1, [Mark(CARET)], p, PHRASE, 4, RenderTerms(terms));
    Fewer(Node(18, [Leaf(Mark(CARET)), p]), NEARSET, 5, 7, [Mark(CARET)] + RenderTerms(terms));
  }

  lemma WithinIs(phrases: seq<seq<Term>>, distance: Option<string>)
    requires NearOk(Within(phrases, distance))
    ensures NearBuilds(NearTree(Within(phrases, distance)), Within(phrases, distance))
  {
    hide Valid, Resolved, Root, Need, Yield, Lhs, Rhs, PhrasesTree, DistanceTree, RenderPhrases, RenderDistance,
        PhrasesOf, Level;
    var near, lp, rp := Leaf(Word("NEAR")), Leaf(Mark(LP)), Leaf(Mark(RP));
    var ps, d := PhrasesTree(phrases), DistanceTree(distance);
    LeafBuilds(Word("NEAR"));
    LeafBuilds(Mark(LP));
    LeafBuilds(Mark(RP));
    PhrasesIs(phrases);
    DistanceBuilds(distance);
    NearRules();
    NodeGood(19, [near, lp, ps, d, rp]);
    FiveKids(19, near, lp, ps, d, rp);
  }

  lemma NearIs(n: Near)
    requires NearOk(n)
    ensures NearBuilds(NearTree(n), n)
  {
    hide NearBuilds;
    match n
    case Phrase(terms) => InitialIs(terms);
    case Initial(terms) => InitialIs(terms);
    case Within(phrases, distance) => WithinIs(phrases, distance);
  }

  // ----- Columns ------------------------------------------------------------------------

  predicate NamesBuild(t: Tree, names: seq<string>) { Builds(t, COLSETLIST, 2, RenderNames(names))
      && NamesOf(t) == names }

  lemma ColumnRules()
    ensures Rhs(6) == [STRING] && Lhs(6) == COLSETLIST && Rhs(5) == [COLSETLIST, STRING] && Lhs(5) == COLSETLIST
    ensures Rhs(3) == [STRING] && Lhs(3) == COLSET && Rhs(4) == [MINUS, STRING] && Lhs(4) == COLSET
    ensures Rhs(2) == [LCP, COLSETLIST, RCP] && Lhs(2) == COLSET
    ensures Rhs(1) == [MINUS, LCP, COLSETLIST, RCP] && Lhs(1) == COLSET
  {}

  lemma OneName(name: string)
    ensures NamesBuild(Node(6, [Leaf(Word(name))]), [name])
  {
    hide Builds, Lhs, Rhs;
    ColumnRules();
    LeafBuilds(Word(name));
    Build1(6, Leaf(Word(name)), STRING, 1, [Word(name)]);
    Fewer(Node(6, [Leaf(Word(name))]), COLSETLIST, 1, 2, [Word(name)]);
    assert [name][..0] == [] && RenderNames([]) == [];
    assert [] + [Word(name)] == [Word(name)];
  }

  lemma MoreNames(t: Tree, names: seq<string>, name: string)
    requires NamesBuild(t, names)
    ensures NamesBuild(Node(5, [t, Leaf(Word(name))]), names + [name])
  {
    hide Builds, Lhs, Rhs;
    ColumnRules();
    LeafBuilds(Word(name));
    Build2(5, t, COLSETLIST, 2, RenderNames(names), Leaf(Word(name)), STRING, 1, [Word(name)]);
    assert (names + [name])[..|names|] == names;
  }

  lemma {:induction false} NamesIs(names: seq<string>)
    requires names != []
    ensures NamesBuild(NamesTree(names), names)
  {
    hide NamesBuild;
    var rest, last := names[..|names| - 1], names[|names| - 1];
    assert names == rest + [last];
    if |names| == 1 {
      OneName(last);
      assert names == [last];
    } else {
      NamesIs(rest);
      MoreNames(NamesTree(rest), rest, last);
    }
  }

  predicate ColumnsBuild(t: Tree, c: Columns) { Builds(t, COLSET, 4, RenderColumns(c)) && ColumnsOf(t) == c }

  lemma OneColumn(negated: bool, name: string)
    ensures ColumnsBuild(ColumnsTree(Columns(negated, [name])), Columns(negated, [name]))
  {
    hide Builds, Lhs, Rhs;
    ColumnRules();
    LeafBuilds(Mark(MINUS));
    LeafBuilds(Word(name));
    Build1(3, Leaf(Word(name)), STRING, 1, [Word(name)]);
    Fewer(Node(3, [Leaf(Word(name))]), COLSET, 1, 4, [Word(name)]);
    Build2(4, Leaf(Mark(MINUS)), MINUS, 1, [Mark(MINUS)], Leaf(Word(name)), STRING, 1, [Word(name)]);
    Fewer(Node(4, [Leaf(Mark(MINUS)), Leaf(Word(name))]), COLSET, 2, 4, [Mark(MINUS)] + [Word(name)]);
    assert [] + [Word(name)] == [Word(name)];
  }

  lemma SomeColumns(names: seq<string>)
    requires |names| > 1
    ensures ColumnsBuild(ColumnsTree(Columns(false, names)), Columns(false, names))
  {
    hide Builds, Lhs, Rhs, NamesTree, NamesOf, RenderNames;
    ColumnRules();
    NamesIs(names);
    LeafBuilds(Mark(LCP));
    LeafBuilds(Mark(RCP));
    Build3(2, Leaf(Mark(LCP)), LCP, 1, [Mark(LCP)], NamesTree(names), COLSETLIST, 2, RenderNames(names),
      Leaf(Mark(RCP)), RCP, 1, [Mark(RCP)]);
    var toks := [Mark(LCP)] + RenderNames(names) + [Mark(RCP)];
    Fewer(ColumnsTree(Columns(false, names)), COLSET, 3, 4, toks);
    assert [] + toks == toks;
  }

  lemma OtherColumns(names: seq<string>)
    requires |names| > 1
    ensures ColumnsBuild(ColumnsTree(Columns(true, names)), Columns(true, names))
  {
    hide Valid, Resolved, Root, Need, Yield, Lhs, Rhs, NamesTree, NamesOf, RenderNames, Level;
    ColumnRules();
    NamesIs(names);
    LeafBuilds(Mark(MINUS));
    LeafBuilds(Mark(LCP));
    LeafBuilds(Mark(RCP));
    var minus, lcp, list, rcp := Leaf(Mark(MINUS)), Leaf(Mark(LCP)), NamesTree(names), Leaf(Mark(RCP));
    NodeGood(1, [minus, lcp, list, rcp]);
    FourKids(1, minus, lcp, list, rcp);
  }

  lemma ColumnsIs(c: Columns)
    requires c.names != []
    ensures ColumnsBuild(ColumnsTree(c), c)
  {
    hide ColumnsBuild, ColumnsTree;
    if |c.names| == 1 {
      assert c.names == [c.names[0]];
      OneColumn(c.negated, c.names[0]);
    } else if c.negated {
      OtherColumns(c.names);
    } else {
      SomeColumns(c.names);
    }
  }

  // ----- Clauses ------------------------------------------------------------------------

  function ClauseNeed(c: Clause): nat { if c.columns.None? && c.near.Phrase? then 4 else 9 }

  predicate ClauseBuilds(t: Tree, c: Clause)
    requires ClauseOk(c)
  {
    Builds(t, CNEARSET, ClauseNeed(c), RenderClause(c)) && ClauseOf(t) == c
  }

  lemma ClauseRules()
    ensures Rhs(15) == [NEARSET] && Lhs(15) == CNEARSET && Rhs(16) == [COLSET, COLON, NEARSET] && Lhs(16) == CNEARSET
    ensures Rhs(13) == [CNEARSET] && Lhs(13) == EXPRLIST && Rhs(14) == [EXPRLIST, CNEARSET] && Lhs(14) == EXPRLIST
    ensures Rhs(12) == [EXPRLIST] && Lhs(12) == EXPR && Rhs(11) == [LP, EXPR, RP] && Lhs(11) == EXPR
    ensures Rhs(10) == [COLSET, COLON, LP, EXPR, RP] && Lhs(10) == EXPR
  {}

  lemma ClauseIs(c: Clause)
    requires ClauseOk(c)
    ensures ClauseBuilds(ClauseTree(c), c)
  {
    hide Builds, Lhs, Rhs, ColumnsTree, NearTree, NearOf, ColumnsOf, RenderNear, RenderColumns;
    ClauseRules();
    var near, n := NearTree(c.near), NearNeed(c.near);
    NearIs(c.near);
    if c.columns.Some? {
      var cols := c.columns.value;
      ColumnsIs(cols);
      LeafBuilds(Mark(COLON));
      Build3(16, ColumnsTree(cols), COLSET, 4, RenderColumns(cols), Leaf(Mark(COLON)), COLON, 1, [Mark(COLON)],
        near, NEARSET, n, RenderNear(c.near));
      Fewer(ClauseTree(c), CNEARSET, Max(4, Max(1 + 1, 2 + n)), 9, RenderClause(c));
    } else {
      Build1(15, near, NEARSET, n, RenderNear(c.near));
      Fewer(ClauseTree(c), CNEARSET, n, ClauseNeed(c), RenderClause(c));
    }
  }

  function ClausesNeed(cs: seq<Clause>): nat { if |cs| == 1 then ClauseNeed(cs[0]) else 10 }

  predicate ClausesBuild(t: Tree, cs: seq<Clause>)
    requires forall k | 0 <= k < |cs| :: ClauseOk(cs[k])
  {
    Builds(t, EXPRLIST, ClausesNeed(cs), RenderClauses(cs)) && ClausesOf(t) == cs
  }

  lemma OneClause(t: Tree, c: Clause)
    requires ClauseOk(c) && ClauseBuilds(t, c)
    ensures ClausesBuild(Node(13, [t]), [c])
  {
    hide Builds, Lhs, Rhs, ClauseOf, RenderClause;
    ClauseRules();
    Build1(13, t, CNEARSET, ClauseNeed(c), RenderClause(c));
    assert [c][..0] == [] && RenderClauses([]) == [];
    assert [] + RenderClause(c) == RenderClause(c);
  }

  lemma MoreClauses(t: Tree, cs: seq<Clause>, last: Tree, c: Clause)
    requires cs != [] && (forall k | 0 <= k < |cs| :: ClauseOk(cs[k])) && ClauseOk(c)
    requires ClausesBuild(t, cs) && ClauseBuilds(last, c)
    ensures ClausesBuild(Node(14, [t, last]), cs + [c])
  {
    hide Builds, Lhs, Rhs, ClauseOf, RenderClause;
    ClauseRules();
    Build2(14, t, EXPRLIST, ClausesNeed(cs), RenderClauses(cs), last, CNEARSET, ClauseNeed(c), RenderClause(c));
    Fewer(Node(14, [t, last]), EXPRLIST, Max(ClausesNeed(cs), 1 + ClauseNeed(c)), 10,
        RenderClauses(cs) + RenderClause(c));
    assert (cs + [c])[..|cs|] == cs;
  }

  lemma {:induction false} ClausesIs(cs: seq<Clause>)
    requires cs != [] && forall k | 0 <= k < |cs| :: ClauseOk(cs[k])
    ensures ClausesBuild(ClausesTree(cs), cs)
  {
    hide ClauseBuilds, ClausesBuild, ClauseOk, ClauseTree;
    var rest, last := cs[..|cs| - 1], cs[|cs| - 1];
    assert cs == rest + [last];
    ClauseIs(last);
    if |cs| == 1 {
      OneClause(ClauseTree(last), last);
      assert cs == [last];
    } else {
      ClausesIs(rest);
      MoreClauses(ClausesTree(rest), rest, ClauseTree(last), last);
    }
  }

  // ----- Queries ------------------------------------------------------------------------

  predicate Spells(q: Query, t: Tree, n: nat, toks: seq<Token>) { Builds(t, EXPR, n, toks) && QueryOf(t) == q }

  lemma ClausesSpell(cs: seq<Clause>)
    requires WellFormed(Clauses(cs))
    ensures Spells(Clauses(cs), TreeOf(Clauses(cs)), Room(Clauses(cs)), Render(Clauses(cs)))
    ensures Level(TreeOf(Clauses(cs))) == 4
  {
    hide Builds, Lhs, Rhs, ClausesOf, RenderClauses, ClausesTree, ClauseOk;
    ClauseRules();
    ClausesIs(cs);
    var t := ClausesTree(cs);
    Build1(12, t, EXPRLIST, ClausesNeed(cs), RenderClauses(cs));
    Fewer(Node(12, [t]), EXPR, ClausesNeed(cs), Room(Clauses(cs)), RenderClauses(cs));
  }

  lemma WrapSpells(q: Query, t: Tree, n: nat, toks: seq<Token>)
    requires n >= 2 && Spells(q, t, n, toks)
    ensures Spells(q, Wrap(t), 1 + n, [Mark(LP)] + toks + [Mark(RP)]) && Level(Wrap(t)) == 4
  {
    hide Builds, Lhs, Rhs;
    ClauseRules();
    LeafBuilds(Mark(LP));
    LeafBuilds(Mark(RP));
    Build3(11, Leaf(Mark(LP)), LP, 1, [Mark(LP)], t, EXPR, n, toks, Leaf(Mark(RP)), RP, 1, [Mark(RP)]);
  }

  lemma FilterSpells(c: Columns, q: Query, t: Tree, n: nat, toks: seq<Token>)
    requires c.names != [] && n >= 2 && Spells(q, t, n, toks)
    ensures var f := Node(10, [ColumnsTree(c), Leaf(Mark(COLON)), Leaf(Mark(LP)), t, Leaf(Mark(RP))]);
      && Spells(Filter(c, q), f, 3 + n, RenderColumns(c) + [Mark(COLON)] + [Mark(LP)] + toks + [Mark(RP)])
      && Level(f) == 4
  {
    hide Valid, Resolved, Root, Need, Yield, Lhs, Rhs, ColumnsTree, ColumnsOf, RenderColumns, Level;
    ClauseRules();
    ColumnsIs(c);
    LeafBuilds(Mark(COLON));
    LeafBuilds(Mark(LP));
    LeafBuilds(Mark(RP));
    NodeGood(10, [ColumnsTree(c), Leaf(Mark(COLON)), Leaf(Mark(LP)), t, Leaf(Mark(RP))]);
    FiveKids(10, ColumnsTree(c), Leaf(Mark(COLON)), Leaf(Mark(LP)), t, Leaf(Mark(RP)));
  }

  lemma OpSpells(kind: int, p: Query, l: Tree, n: nat, tl: seq<Token>, q: Query, r: Tree, m: nat, tr: seq<Token>)
    requires kind in {OR, AND, NOT} && Spells(p, l, n, tl) && Spells(q, r, m, tr) && Level(l) == 4 && Level(r) == 4
    ensures Spells(Op(kind, p, q), Binary(l, Leaf(Mark(kind)), r), Max(n, 2 + m), tl + [Mark(kind)] + tr)
  {
    hide Need, Valid, Resolved, Root, Yield, Level;
    LeafBuilds(Mark(kind));
    assert Operator(Leaf(Mark(kind))) by { assert Leaf(Mark(kind)).tok.kind == kind; }
    BinaryIs(l, Leaf(Mark(kind)), r);
    ThreeKids(OpRule(kind), l, Leaf(Mark(kind)), r);
    NeedAll(l, r);
  }

  lemma {:induction false} NeedAll(l: Tree, r: Tree)
    requires Valid(l) && Valid(r)
    ensures Need(l) >= 1 && Need(r) >= 1
  {
    NeedOne(l);
    NeedOne(r);
  }

  lemma NeedOne(t: Tree)
    ensures Need(t) >= 1
  {
    if t.Node? && t.kids != [] { NeedOne(t.kids[0]); }
  }

  // The tree of a query spells what is written and says what was meant.
  lemma {:induction false} TreeIs(q: Query)
    requires WellFormed(q)
    ensures Spells(q, TreeOf(q), Room(q), Render(q)) && (!q.Op? ==> Level(TreeOf(q)) == 4)
    decreases q, 0
  {
    hide Spells, Level, ColumnsTree, RenderColumns;
    match q
    case Clauses(cs) => ClausesSpell(cs);
    case Op(kind, l, r) =>
      OperandIs(l);
      OperandIs(r);
      OpSpells(kind, l, OperandTree(l), 1 + Room(l), RenderOperand(l), r, OperandTree(r), 1 + Room(r),
          RenderOperand(r));
      RoomFits(q, TreeOf(q), Max(1 + Room(l), 3 + Room(r)), Render(q));
    case Filter(columns, sub) =>
      TreeIs(sub);
      FilterSpells(columns, sub, TreeOf(sub), Room(sub), Render(sub));
      RoomFits(q, TreeOf(q), 3 + Room(sub), Render(q));
  }

  lemma RoomFits(q: Query, t: Tree, n: nat, toks: seq<Token>)
    requires Spells(q, t, n, toks) && n <= Room(q)
    ensures Spells(q, t, Room(q), toks)
  {
    Fewer(t, EXPR, n, Room(q), toks);
  }

  lemma {:induction false} OperandIs(q: Query)
    requires WellFormed(q)
    ensures Spells(q, OperandTree(q), 1 + Room(q), RenderOperand(q)) && Level(OperandTree(q)) == 4
    decreases q, 1
  {
    hide Builds, Level;
    TreeIs(q);
    if q.Op? {
      WrapSpells(q, TreeOf(q), Room(q), Render(q));
    } else {
      Fewer(TreeOf(q), EXPR, Room(q), 1 + Room(q), Render(q));
    }
  }

  // Round trip: a query written with parenthesised operands is parsed back to itself
  // unless its tree overflows the stack; it never is a syntax error.
  lemma QueryRoundTrip(end: nat, q: Query)
    requires WellFormed(q)
    ensures Expression(Render(q)) && Tokens(Render(q))
    ensures var o := Parse(end, Render(q));
      if Need(TreeOf(q)) <= end then o.Accepted? && QueryOf(o.tree) == q else o == Overflow
  {
    hide Parse, Valid, Resolved, Root, Need, Operand, Level;
    var t := TreeOf(q);
    TreeIs(q);
    assert Operand(t) by { SpellsOperand(q, t, Room(q), Render(q)); }
    InputOf(t);
    OneKid(0, t);
    ParseComplete(end, Node(0, [t]));
  }

  lemma SpellsOperand(q: Query, t: Tree, n: nat, toks: seq<Token>)
    requires Spells(q, t, n, toks)
    ensures Operand(t)
  {}

  const YYSTACKDEPTH := 100

  // The default stack reads every query nested at most twenty-nine deep, and queries
  // made of single phrases thirty-one deep.
  lemma DefaultDepth(q: Query)
    requires WellFormed(q) && Depth(q) <= if Plain(q) then 31 else 29
    ensures Tokens(Render(q))
    ensures var o := Parse(YYSTACKDEPTH - 1, Render(q)); o.Accepted? && QueryOf(o.tree) == q
  {
    hide Parse, Need, Valid, Resolved, Root, Level;
    QueryRoundTrip(YYSTACKDEPTH - 1, q);
    TreeIs(q);
  }
}
