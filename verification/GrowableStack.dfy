/** The parser template's growable stack: an array that is replaced by a larger one
    when it is full, refining a stack without bound. */
module GrowableStack {

  function Reversed<T>(s: seq<T>): seq<T> { if s == [] then [] else Reversed(s[1..]) + [s[0]] }

  lemma {:induction false} ReversedLast<T>(s: seq<T>, x: T)
    ensures Reversed(s + [x]) == [x] + Reversed(s)
  {
    if s == [] {
      assert s + [x] == [x];
    } else {
      ReversedLast(s[1..], x);
      assert (s + [x])[1..] == s[1..] + [x];
    }
  }

  // What the parser does to its stack: shift an entry, or reduce n entries to one.
  datatype Op<T> = Shift(x: T) | Reduce(n: nat, x: T)

  predicate Grows<T>(op: Op<T>) { op.Shift? || op.n == 0 }

  // The unbounded stack.
  predicate Able<T>(st: seq<T>, ops: seq<Op<T>>)
    decreases |ops|
  {
    ops == [] || (Fits(st, ops[0]) && Able(Step(st, ops[0]), ops[1..]))
  }

  predicate Fits<T>(st: seq<T>, op: Op<T>) { op.Reduce? ==> op.n <= |st| }

  function Step<T>(st: seq<T>, op: Op<T>): seq<T>
    requires Fits(st, op)
  {
    match op
    case Shift(x) => st + [x]
    case Reduce(n, x) => st[..|st| - n] + [x]
  }

  function After<T>(st: seq<T>, ops: seq<Op<T>>): seq<T>
    requires Able(st, ops)
    decreases |ops|
  {
    if ops == [] then st else After(Step(st, ops[0]), ops[1..])
  }

  lemma {:induction false} AfterSplit<T>(st: seq<T>, ops: seq<Op<T>>, j: nat)
    requires Able(st, ops) && j < |ops|
    ensures Able(st, ops[..j]) && Fits(After(st, ops[..j]), ops[j])
    ensures Able(st, ops[..j + 1]) && After(st, ops[..j + 1]) == Step(After(st, ops[..j]), ops[j])
    decreases j
  {
    if j == 0 {
      assert ops[..1][1..] == [];
    } else {
      AfterSplit(Step(st, ops[0]), ops[1..], j - 1);
      assert ops[..j][1..] == ops[1..][..j - 1] && ops[..j + 1][1..] == ops[1..][..j];
    }
  }

  lemma AbleNil<T>(st: seq<T>)
    ensures Able(st, []) && After(st, []) == st
  {}

  class Stack<T(0)> {
    var entries: array<T>
    var tos: nat
    var freed: seq<T>        // what the destructors were called on, in order
    const depth: nat         // YYSTACKDEPTH
    const limit: nat         // YYSIZELIMIT, or 0 for none

    ghost predicate Valid()
      reads this, entries
    {
      && tos < entries.Length && depth <= entries.Length
      && (entries.Length == depth || limit == 0 || entries.Length <= limit)
    }

    // Everything above the bottom entry.
    ghost function Contents(): (s: seq<T>)
      reads this, entries
    {
      if tos < entries.Length then entries[1..tos + 1] else []
    }

    // The array can come to hold n entries, the bottom one included.
    predicate Allows(n: int) { limit == 0 || n <= limit || n <= depth }

    constructor (depth: nat, limit: nat)
      requires depth > 0
      ensures Valid() && fresh(entries) && this.depth == depth && this.limit == limit
      ensures Contents() == [] && freed == []
    {
      entries := new T[depth];
      tos, freed, this.depth, this.limit := 0, [], depth, limit;
    }

    // yyGrowStack; alloc says whether the allocator delivers.
    method Grow(alloc: bool) returns (failed: bool)
      requires Valid()
      modifies this`entries
      ensures Valid() && Contents() == old(Contents())
      ensures failed ==> entries == old(entries)
      ensures !failed ==>
        && fresh(entries) && old(entries.Length) < entries.Length
        && entries[..old(entries.Length)] == old(entries[..])
        && (entries.Length == 2 * old(entries.Length) + 100 || entries.Length == limit)
        && (limit > 0 ==> entries.Length <= limit)
      ensures failed <==> !alloc || (0 < limit <= old(entries.Length))
    {
      var oldSize := entries.Length;
      var newSize := oldSize * 2 + 100;
      if limit > 0 && newSize > limit {
        newSize := limit;
        if newSize <= oldSize { return true; }
      }
      if !alloc { return true; }
      var larger := new T[newSize];
      for i := 0 to oldSize
        invariant entries == old(entries) && entries.Length == oldSize && fresh(larger)
        invariant forall j | 0 <= j < i :: larger[j] == entries[j]
      {
        larger[i] := entries[i];
      }
      ghost var before := Contents();
      entries := larger;
      assert Contents() == before;
      return false;
    }

    method Pop()
      requires Valid() && tos > 0
      modifies this`tos, this`freed
      ensures Valid() && Contents() == old(Contents()[..tos - 1])
      ensures freed == old(freed) + [old(Contents()[tos - 1])]
    {
      var top := entries[tos];
      tos := tos - 1;
      freed := freed + [top];
    }

    // yyStackOverflow: every entry is popped once, the top one first.
    method Overflow()
      requires Valid()
      modifies this`tos, this`freed
      ensures Valid() && Contents() == []
      ensures freed == old(freed) + Reversed(old(Contents()))
    {
      ghost var all := Contents();
      while tos > 0
        invariant Valid() && tos <= |all| && Contents() == all[..tos]
        invariant freed + Reversed(all[..tos]) == old(freed) + Reversed(all)
      {
        ReversedLast(all[..tos - 1], all[tos - 1]);
        assert all[..tos] == all[..tos - 1] + [all[tos - 1]];
        Pop();
      }
    }

    // Room for one more entry above the top, if need be by growing.
    method Reserve(alloc: bool) returns (failed: bool)
      requires Valid()
      modifies this`entries
      ensures Valid() && Contents() == old(Contents()) && tos == old(tos)
      ensures entries == old(entries) || fresh(entries)
      ensures !failed ==> tos + 1 < entries.Length
      ensures failed ==> entries == old(entries)
      ensures alloc ==> (failed <==> !Allows(tos + 2))
    {
      failed := false;
      if tos + 1 >= entries.Length { failed := Grow(alloc); }
    }

    // yy_shift, and the goto after an empty reduction.
    method Push(x: T, alloc: bool) returns (overflow: bool)
      requires Valid()
      modifies this`entries, this`tos, this`freed, entries
      ensures Valid() && (entries == old(entries) || fresh(entries))
      ensures !overflow ==> Contents() == old(Contents()) + [x] && freed == old(freed)
      ensures overflow ==> Contents() == [] && freed == old(freed) + Reversed(old(Contents()))
      ensures alloc ==> (overflow <==> !Allows(|old(Contents())| + 2))
    {
      overflow := Reserve(alloc);
      if overflow {
        Overflow();
      } else {
        tos := tos + 1;
        entries[tos] := x;
      }
    }

    // A reduction of n > 0 entries: the lowest of them is overwritten.
    method Replace(n: nat, x: T)
      requires Valid() && 0 < n <= |Contents()|
      modifies this`tos, entries
      ensures Valid()
      ensures Contents() == old(Contents()[..|Contents()| - n]) + [x]
    {
      tos := tos - n + 1;
      entries[tos] := x;
    }

    // One operation, as the parser's loop does it.
    method Do(op: Op<T>, alloc: bool) returns (overflow: bool)
      requires Valid() && Fits(Contents(), op)
      modifies this`entries, this`tos, this`freed, entries
      ensures Valid() && (entries == old(entries) || fresh(entries))
      ensures !overflow ==> Contents() == Step(old(Contents()), op) && freed == old(freed)
      ensures overflow ==> Grows(op) && Contents() == [] && freed == old(freed) + Reversed(old(Contents()))
      ensures alloc ==> (overflow <==> Grows(op) && !Allows(|old(Contents())| + 2))
    {
      overflow := false;
      match op {
        case Shift(x) => overflow := Push(x, alloc);
        case Reduce(n, x) =>
          if n == 0 {
            overflow := Push(x, alloc);
          } else {
            Replace(n, x);
          }
      }
    }
  }

  // The array may hold what operation i needs.
  ghost predicate HasRoom<T(0)>(s: Stack<T>, ops: seq<Op<T>>, i: nat)
    requires i < |ops|
  {
    Able([], ops[..i]) && (Grows(ops[i]) ==> s.Allows(|After([], ops[..i])| + 2))
  }

  // A whole run refines the unbounded stack: either it ends with the same contents and
  // nothing destroyed, or at some operation that needs room the array cannot grow, and
  // then every entry of that moment has been destroyed once.  With an allocator that
  // delivers, that happens exactly when the run outgrows the limit.
  method Run<T(0)>(s: Stack<T>, ops: seq<Op<T>>, allocs: seq<bool>) returns (overflow: bool, j: nat)
    requires s.Valid() && s.Contents() == [] && s.freed == [] && Able([], ops) && |allocs| == |ops|
    modifies s, s.entries
    ensures s.Valid() && j <= |ops| && Able([], ops[..j])
    ensures !overflow ==> j == |ops| && s.Contents() == After([], ops) && s.freed == []
    ensures overflow ==> j < |ops| && Grows(ops[j]) && s.Contents() == [] && s.freed == Reversed(After([], ops[..j]))
    ensures (forall k | 0 <= k < |allocs| :: allocs[k]) ==>
      (!overflow <==> forall i: nat | i < |ops| :: HasRoom(s, ops, i))
  {
    hide Able, After, Reversed, Step, Fits;
    AbleNil<T>([]);
    j := 0;
    ghost var st: seq<T> := [];
    assert ops[..0] == [];
    while j < |ops|
      invariant j <= |ops| && s.Valid() && s.freed == [] && (s.entries == old(s.entries) || fresh(s.entries))
      invariant Able([], ops[..j]) && st == After([], ops[..j]) && s.Contents() == st
      invariant (forall k | 0 <= k < |allocs| :: allocs[k]) ==>
        forall i: nat | i < j :: HasRoom(s, ops, i)
    {
      AfterSplit([], ops, j);
      overflow := s.Do(ops[j], allocs[j]);
      assert st == After([], ops[..j]);
      if overflow {
        assert allocs[j] ==> !HasRoom(s, ops, j);
        return;
      }
      st := Step(st, ops[j]);
      j := j + 1;
    }
    assert ops[..j] == ops;
    overflow := false;
  }
}
