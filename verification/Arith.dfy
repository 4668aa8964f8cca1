/** Division facts used by the sampling interval and by decimal text. */
module Arith {

  // Quotient and remainder are unique.
  lemma DivIs(k: nat, d: nat, q: nat, r: nat)
    requires d > 0 && k == q * d + r && r < d
    ensures k / d == q && k % d == r
  {
    var q', r' := k / d, k % d;
    assert k == q' * d + r';
    if q > q' { MulGap(q, q', d); assert false; }
    if q < q' { MulGap(q', q, d); assert false; }
  }

  lemma MulGap(a: nat, b: nat, d: nat)
    requires a > b
    ensures a * d >= b * d + d
  {
    assert a * d == (a - b - 1) * d + (b + 1) * d;
  }

  // The quotient steps up exactly at the multiples of d.
  lemma DivStep(k: nat, d: nat)
    requires d > 0
    ensures k / d != (k + 1) / d <==> (k + 1) % d == 0
    ensures (k + 1) / d == k / d + if (k + 1) % d == 0 then 1 else 0
  {
    var q, r := k / d, k % d;
    assert k == q * d + r;
    if r + 1 < d {
      DivIs(k + 1, d, q, r + 1);
    } else {
      assert (q + 1) * d == q * d + d;
      DivIs(k + 1, d, q + 1, 0);
    }
  }

  // n rows out of an announced e, one sample per e/q+1 rows: fewer than q.
  lemma IntervalBudget(e: nat, q: nat, n: nat)
    requires n <= e && q > 0
    ensures n / (e / q + 1) < q
  {
    var d := e / q + 1;
    assert d * q == (e / q) * q + q;
    assert e < d * q;
    var t := n / d;
    assert n == t * d + n % d;
    if t > q { MulGap(t, q, d); }
  }

  predicate Multiple(k: nat, d: nat) {
    d > 0 && k % d == 0
  }

  // How many of 1..n are multiples of d.
  function Multiples(n: nat, d: nat): nat {
    if n == 0 then 0 else Multiples(n - 1, d) + if Multiple(n, d) then 1 else 0
  }

  lemma {:induction false} MultiplesIs(n: nat, d: nat)
    requires d > 0
    ensures Multiples(n, d) == n / d
  {
    if n > 0 {
      MultiplesIs(n - 1, d);
      DivStep(n - 1, d);
    } else {
      DivIs(0, d, 0, 0);
    }
  }

  lemma {:induction false} MultiplesGrow(a: nat, b: nat, d: nat)
    requires a <= b
    ensures Multiples(a, d) <= Multiples(b, d)
  {
    if a < b { MultiplesGrow(a, b - 1, d); }
  }

  // How many rows lie between two periodic samples, for e announced rows and
  // a budget of mx samples.
  function Interval(e: nat, mx: nat): (d: nat)
    ensures d > 0
  {
    e / (mx / 3 + 1) + 1
  }

  // d is the closest spacing that uses at most a third of a budget of mx
  // samples on e rows.
  predicate ClosestSpacing(d: nat, e: nat, mx: nat) {
    && d > 0 && Multiples(e, d) <= mx / 3
    && forall c: nat {:trigger Multiples(e, c)} :: 0 < c < d ==> Multiples(e, c) > mx / 3
  }

  // Sampling any more often would use more than a third of the budget.
  lemma {:induction false} IntervalIsClosest(e: nat, mx: nat)
    ensures ClosestSpacing(Interval(e, mx), e, mx)
  {
    ThirdOfBudget(e, mx, e);
    forall c: nat | 0 < c < Interval(e, mx)
      ensures Multiples(e, c) > mx / 3
    {
      MultiplesIs(e, c);
      ManyMultiples(e, mx / 3 + 1, c);
    }
  }

  lemma ManyMultiples(e: nat, q: nat, c: nat)
    requires q > 0 && 0 < c <= e / q
    ensures e / c >= q
  {
    var t := e / c;
    assert e == t * c + e % c;
    assert (e / q) * q <= e;
    if t < q {
      MulGap(q, t, c);
      MulUp(c, e / q, q);
      assert false;
    }
  }

  lemma MulUp(a: nat, b: nat, q: nat)
    requires a <= b
    ensures a * q <= b * q
  {}

  // No other spacing is the closest one.
  lemma ClosestIsInterval(d: nat, e: nat, mx: nat)
    requires ClosestSpacing(d, e, mx)
    ensures d == Interval(e, mx)
  {
    IntervalIsClosest(e, mx);
  }

  // One sample per interval uses at most a third of the budget.
  lemma ThirdOfBudget(e: nat, mx: nat, n: nat)
    requires n <= e
    ensures Multiples(n, Interval(e, mx)) <= mx / 3
  {
    MultiplesIs(n, Interval(e, mx));
    IntervalBudget(e, mx / 3 + 1, n);
  }
}
