/** Compound SELECT chains: pPrior leads from the last term to the first, and once
    the statement is complete pNext must lead back. */
module SelectChain {

  datatype SetOp = None | Union | UnionAll | Except | Intersect

  datatype Complaint = OrderByNotLast(op: SetOp) | LimitNotLast(op: SetOp) | TooManyTerms

  class Select {
    var op: SetOp
    var prior: Select?
    var next: Select?
    var compound: bool       // SF_Compound
    var values: bool         // SF_Values
    var multiValue: bool     // SF_MultiValue
    var orderBy: bool
    var limit: bool
    var from: Select?        // a subquery in the FROM clause

    constructor (orderBy: bool, limit: bool, values: bool, from: Select?)
      ensures this.orderBy == orderBy && this.limit == limit && this.values == values && this.from == from
      ensures op == SetOp.None && prior == null && next == null && !compound && !multiValue
    {
      this.orderBy, this.limit, this.values, this.from := orderBy, limit, values, from;
      op, prior, next, compound, multiValue := SetOp.None, null, null, false, false;
    }
  }

  ghost predicate Distinct(c: seq<Select>) { forall i, j | 0 <= i < j < |c| :: c[i] != c[j] }

  // The terms written before and after term i: the chain starts with the last one.
  ghost function Before(c: seq<Select>, i: nat): Select? { if i + 1 < |c| then c[i + 1] else null }

  ghost function After(c: seq<Select>, i: nat): Select?
    requires i <= |c|
  {
    if i == 0 then null else c[i - 1]
  }

  // c lists the terms from p back to the first one.
  ghost predicate Chain(p: Select, c: seq<Select>)
    reads c
  {
    && c != [] && c[0] == p && Distinct(c)
    && forall i | 0 <= i < |c| :: c[i].prior == Before(c, i)
  }

  // Which terms carry ORDER BY or LIMIT.
  ghost function Ordered(c: seq<Select>): (d: seq<bool>)
    reads c
    ensures |d| == |c| && forall i | 0 <= i < |c| :: d[i] == (c[i].orderBy || c[i].limit)
  {
    seq(|c|, i requires 0 <= i < |c| reads c => c[i].orderBy || c[i].limit)
  }

  // How many terms come before an ordered one, other than the head itself.
  function CleanTerms(ordered: seq<bool>, i: nat): (k: nat)
    requires i <= |ordered|
    ensures i <= k <= |ordered|
    ensures forall j | i <= j < k :: !ordered[j]
    ensures k < |ordered| ==> ordered[k]
    decreases |ordered| - i
  {
    if i == |ordered| || ordered[i] then i else CleanTerms(ordered, i + 1)
  }

  // The first n terms are flagged and lead back to the head.
  ghost predicate Linked(c: seq<Select>, n: nat)
    requires n <= |c|
    reads c
  {
    forall i | 0 <= i < n :: c[i].compound && c[i].next == After(c, i)
  }

  // One turn: term i of the chain is linked to the one after it.
  method LinkTerm(term: Select, next: Select?, ghost p: Select, ghost c: seq<Select>, ghost i: nat)
    requires Chain(p, c) && i < |c| && term == c[i] && next == After(c, i)
    requires Linked(c, i)
    modifies term`next, term`compound
    ensures Linked(c, i + 1)
    ensures Chain(p, c) && Ordered(c) == old(Ordered(c))
    ensures forall j | i < j < |c| :: unchanged(c[j])
  {
    hide Chain, Ordered, Before, After;
    ghost var d := Ordered(c);
    OrderedAt(c);
    ChainTerms(p, c);
    assert forall j | 0 <= j < i :: c[j] != term;
    term.next := next;
    term.compound := true;
    OrderedIs(c, d);
    ChainIs(p, c);
    LinkedNext(c, i);
  }

  lemma LinkedNext(c: seq<Select>, n: nat)
    requires n < |c| && c[n].compound && c[n].next == After(c, n)
    requires forall i | 0 <= i < n :: c[i].compound && c[i].next == After(c, i)
    ensures Linked(c, n + 1)
  {}

  lemma ChainTerms(p: Select, c: seq<Select>)
    requires Chain(p, c)
    ensures c != [] && c[0] == p && Distinct(c) && forall i | 0 <= i < |c| :: c[i].prior == Before(c, i)
  {}

  lemma ChainIs(p: Select, c: seq<Select>)
    requires c != [] && c[0] == p && Distinct(c) && forall i | 0 <= i < |c| :: c[i].prior == Before(c, i)
    ensures Chain(p, c)
  {}

  lemma OrderedAt(c: seq<Select>)
    ensures |Ordered(c)| == |c| && forall i | 0 <= i < |c| :: Ordered(c)[i] == (c[i].orderBy || c[i].limit)
  {}

  lemma OrderedIs(c: seq<Select>, d: seq<bool>)
    requires |d| == |c| && forall i | 0 <= i < |c| :: d[i] == (c[i].orderBy || c[i].limit)
    ensures Ordered(c) == d
  {}

  lemma ChainAt(p: Select, c: seq<Select>, i: nat)
    requires Chain(p, c) && i < |c|
    ensures c[i].prior == Before(c, i)
  {}

  lemma NoneLinked(c: seq<Select>)
    ensures Linked(c, 0)
  {}

  // The complaint about term k, if there is one.
  ghost function Misplaced(c: seq<Select>, k: nat): seq<Complaint>
    requires 0 < k <= |c|
    reads c
  {
    if k == |c| then [] else if c[k].orderBy then [OrderByNotLast(c[k - 1].op)] else [LimitNotLast(c[k - 1].op)]
  }

  // pNext undoes pPrior along the whole chain, every term is flagged, and only the
  // head, the last term written, carries ORDER BY or LIMIT.
  ghost predicate WellLinked(p: Select, c: seq<Select>)
    reads c
  {
    && Chain(p, c) && p.next == null
    && (forall i | 0 <= i < |c| :: c[i].compound)
    && (forall i | 0 < i < |c| :: c[i].next == c[i - 1] && c[i - 1].prior == c[i])
    && (forall i | 0 < i < |c| :: !c[i].orderBy && !c[i].limit)
  }

  // parserDoubleLinkSelect.  The ghost chain only names the terms.
  method DoubleLink(p: Select, mxSelect: int, ghost c: seq<Select>) returns (errors: seq<Complaint>)
    requires Chain(p, c)
    modifies c`next, c`compound
    ensures |c| == 1 ==> errors == [] && unchanged(p)
    ensures |c| > 1 ==>
      var k := CleanTerms(old(Ordered(c)), 1);
      var cnt := if k < |c| then k + 1 else k;
      && Linked(c, k)
      && (forall i | k <= i < |c| :: unchanged(c[i]))
      && errors == Misplaced(c, k) +
           if !p.multiValue && !p.values && mxSelect > 0 && cnt > mxSelect then [TooManyTerms] else []
    ensures Chain(p, c) && (|c| > 1 && errors == [] ==> WellLinked(p, c))
  {
    hide WellLinked, Linked, Chain;
    errors := [];
    ghost var i, k := 0, 0;
    ChainTerms(p, c);
    NoneLinked(c);
    ChainAt(p, c, 0);
    if p.prior != null {
      k := CleanTerms(Ordered(c), 1);
      var next: Select? := null;
      var loop: Select := p;
      var cnt := 1;
      LinkTerm(loop, next, p, c, i);
      while loop.prior != null && errors == []
        invariant 0 <= i < |c| && loop == c[i] && cnt == i + 1
        invariant next == After(c, i)
        invariant Chain(p, c) && k == CleanTerms(Ordered(c), 1)
        invariant if errors == [] then i < k && Linked(c, i + 1)
                  else i == k && Linked(c, k) && errors == Misplaced(c, k)
        invariant forall j | (if errors == [] then i + 1 else k) <= j < |c| :: unchanged(c[j])
        decreases |c| - i, errors == []
      {
        ChainAt(p, c, i);
        next := loop;
        loop := loop.prior;
        i := i + 1;
        cnt := cnt + 1;
        if loop.orderBy || loop.limit {
          errors := [if loop.orderBy then OrderByNotLast(next.op) else LimitNotLast(next.op)];
        } else {
          LinkTerm(loop, next, p, c, i);
        }
      }
      ChainAt(p, c, i);
      if !p.multiValue && !p.values && mxSelect > 0 && cnt > mxSelect { errors := errors + [TooManyTerms]; }
    }
    assert Chain(p, c);
    if |c| > 1 && errors == [] { AllLinked(p, c); }
  }

  lemma LinkedAt(c: seq<Select>, n: nat, i: nat)
    requires i < n <= |c| && Linked(c, n)
    ensures c[i].compound && c[i].next == After(c, i)
  {}

  lemma AllLinked(p: Select, c: seq<Select>)
    requires Chain(p, c) && Linked(c, |c|) && forall i | 0 < i < |c| :: !Ordered(c)[i]
    ensures WellLinked(p, c)
  {
    forall i | 0 < i < |c|
      ensures c[i].next == c[i - 1] && c[i - 1].prior == c[i] && !c[i].orderBy && !c[i].limit
    {
      ChainAt(p, c, i - 1);
      LinkedAt(c, |c|, i);
      assert !Ordered(c)[i];
    }
    LinkedAt(c, |c|, 0);
  }

  // A new term at the head of a chain.
  method Attach(lhs: Select, op: SetOp, r: Select, ghost cl: seq<Select>)
    requires Chain(lhs, cl) && r !in cl
    modifies r`op, r`prior, r`multiValue, lhs`multiValue
    ensures Chain(r, [r] + cl) && r.op == op && !r.multiValue && !lhs.multiValue
  {
    r.op := op;
    r.prior := lhs;
    lhs.multiValue := false;
    r.multiValue := false;
    forall i | 0 <= i < |cl| ensures cl[i].prior == Before(cl, i) {
      assert cl[i] != r && cl[i].prior == old(cl[i].prior);
    }
    ghost var c := [r] + cl;
    forall i | 0 <= i < |c| ensures c[i].prior == Before(c, i) {
      if i > 0 {
        ChainAt(lhs, cl, i - 1);
        assert c[i] == cl[i - 1];
      }
    }
    assert Chain(r, c);
  }

  // selectnowith ::= selectnowith multiselect_op oneselect.  A right operand that is
  // itself a chain becomes a subquery of a new term.
  method AppendTerm(lhs: Select, op: SetOp, rhs: Select, mxSelect: int, ghost cl: seq<Select>, ghost cr: seq<Select>)
    returns (r: Select, errors: seq<Complaint>)
    requires Chain(lhs, cl) && Chain(rhs, cr) && forall s | s in cl :: s !in cr
    modifies rhs`op, rhs`prior, rhs`multiValue, lhs`multiValue, cr`next, cr`compound
    ensures Chain(r, [r] + cl) && r.op == op && !r.multiValue && !lhs.multiValue
    ensures |cr| == 1 ==> r == rhs && errors == [] && rhs.next == old(rhs.next) && rhs.compound == old(rhs.compound)
    ensures |cr| > 1 ==>
      && fresh(r) && r.from == rhs && !r.orderBy && !r.limit
      && Chain(rhs, cr) && rhs.op == old(rhs.op) && (errors == [] ==> WellLinked(rhs, cr))
    ensures |cr| > 1 ==>
      var k := CleanTerms(old(Ordered(cr)), 1);
      var cnt := if k < |cr| then k + 1 else k;
      && Linked(cr, k) && rhs.multiValue == old(rhs.multiValue)
      && errors == Misplaced(cr, k) +
           if !rhs.multiValue && !rhs.values && mxSelect > 0 && cnt > mxSelect then [TooManyTerms] else []
  {
    hide WellLinked, Linked, Chain, CleanTerms, Ordered, Misplaced;
    errors := [];
    r := rhs;
    ChainTerms(lhs, cl);
    ChainTerms(rhs, cr);
    ChainAt(rhs, cr, 0);
    assert lhs in cl && rhs in cr && forall i | 0 <= i < |cl| :: cl[i] !in cr;
    if rhs.prior != null {
      errors := DoubleLink(rhs, mxSelect, cr);
      ChainIs(lhs, cl);
      r := new Select(false, false, false, rhs);
    }
    Attach(lhs, op, r, cl);
  }
}
