/** The text form of the statistics: what stat_get prints is read back unchanged when
    the schema is loaded, in 64-bit arithmetic. */
module StatText {

  // tRowcnt is an unsigned 64-bit integer.
  const WORD := 0x1_0000_0000_0000_0000

  predicate IsDigit(c: char) { '0' <= c <= '9' }

  // ----- Printing -------------------------------------------------------------------------

  function Digit(d: nat): (c: char)
    requires d < 10
    ensures IsDigit(c) && c as int - '0' as int == d
  {
    ('0' as int + d) as char
  }

  // %llu
  function Decimal(n: nat): (s: string)
    ensures s != [] && forall k | 0 <= k < |s| :: IsDigit(s[k])
  {
    if n < 10 then [Digit(n)] else Decimal(n / 10) + [Digit(n % 10)]
  }

  // No leading zeros.
  lemma {:induction false} DecimalPlain(n: nat)
    ensures Decimal(n)[0] == '0' <==> n == 0
    ensures n == 0 ==> Decimal(n) == "0"
  {
    if n >= 10 { DecimalPlain(n / 10); }
  }

  // Numbers with one space between each two.
  function Joined(ns: seq<nat>): string {
    if ns == [] then ""
    else if |ns| == 1 then Decimal(ns[0])
    else Decimal(ns[0]) + " " + Joined(ns[1..])
  }

  lemma {:induction false} JoinedLast(ns: seq<nat>, n: nat)
    ensures Joined(ns + [n]) == if ns == [] then Decimal(n) else Joined(ns) + " " + Decimal(n)
  {
    if |ns| > 0 {
      assert (ns + [n])[1..] == ns[1..] + [n];
      JoinedLast(ns[1..], n);
    }
  }

  // Nothing but digits and single spaces, with a digit at both ends.
  lemma {:induction false} JoinedCharacters(ns: seq<nat>)
    ensures forall k | 0 <= k < |Joined(ns)| :: IsDigit(Joined(ns)[k]) || Joined(ns)[k] == ' '
    ensures forall k | 0 < k < |Joined(ns)| :: IsDigit(Joined(ns)[k - 1]) || IsDigit(Joined(ns)[k])
    ensures ns != [] ==> Joined(ns) != "" && IsDigit(Joined(ns)[0]) && IsDigit(Joined(ns)[|Joined(ns)| - 1])
  {
    if |ns| > 1 { JoinedCharacters(ns[1..]); }
  }

  // The counts of a sample: a space after each, the last one taken off again.
  method PrintCounts(counts: seq<nat>) returns (s: string)
    ensures s == Joined(counts)
  {
    hide Joined, Decimal;
    s := "";
    for i := 0 to |counts|
      invariant s == if i == 0 then "" else Joined(counts[..i]) + " "
    {
      JoinedUpto(counts, i);
      s := s + Decimal(counts[i]) + " ";
    }
    assert counts[..|counts|] == counts;
    if |s| > 0 { s := s[..|s| - 1]; }
    if counts == [] { NothingJoined(); }
  }

  lemma JoinedUpto(ns: seq<nat>, i: nat)
    requires i < |ns|
    ensures Joined(ns[..i + 1]) == if i == 0 then Decimal(ns[0]) else Joined(ns[..i]) + " " + Decimal(ns[i])
  {
    hide Joined, Decimal;
    assert ns[..i + 1] == ns[..i] + [ns[i]];
    JoinedLast(ns[..i], ns[i]);
  }

  lemma NothingJoined()
    ensures Joined([]) == ""
  {}

  // The sqlite_stat1 line: the rows, then an estimate for each key column.
  method PrintLine(rows: nat, estimates: seq<nat>) returns (s: string)
    ensures s == Joined([rows] + estimates)
  {
    s := Decimal(rows);
    for i := 0 to |estimates|
      invariant s == Joined([rows] + estimates[..i])
    {
      JoinedLast([rows] + estimates[..i], estimates[i]);
      assert [rows] + estimates[..i + 1] == [rows] + estimates[..i] + [estimates[i]];
      s := s + " " + Decimal(estimates[i]);
    }
    assert estimates[..|estimates|] == estimates;
  }

  // ----- Reading --------------------------------------------------------------------------

  // The digits at the head of z, appended to v, and what follows them.
  function ReadNumber(z: string, v: nat): (nat, string) {
    if z != [] && IsDigit(z[0]) then ReadNumber(z[1..], (v * 10 + (z[0] as int - '0' as int)) % WORD) else (v, z)
  }

  function SkipSpace(z: string): string { if z != [] && z[0] == ' ' then z[1..] else z }

  // At most n numbers; where there is no digit the number is 0.
  function Decoded(z: string, n: nat): seq<nat>
    decreases n
  {
    if z == [] || n == 0 then []
    else
      var (v, rest) := ReadNumber(z, 0);
      [v] + Decoded(SkipSpace(rest), n - 1)
  }

  // The inner loop: the number at z[start].
  method ReadAt(z: string, start: nat) returns (v: nat, p: nat)
    requires start <= |z|
    ensures start <= p <= |z| && ReadNumber(z[start..], 0) == (v, z[p..])
  {
    v, p := 0, start;
    while p < |z| && IsDigit(z[p])
      invariant start <= p <= |z|
      invariant ReadNumber(z[start..], 0) == ReadNumber(z[p..], v)
    {
      assert z[p..][1..] == z[p + 1..];
      v := (v * 10 + (z[p] as int - '0' as int)) % WORD;
      p := p + 1;
    }
  }

  lemma DecodedNext(z: string, n: nat, v: nat, rest: string)
    requires z != [] && n > 0 && ReadNumber(z, 0) == (v, rest)
    ensures Decoded(z, n) == [v] + Decoded(SkipSpace(rest), n - 1)
  {}

  lemma DecodedEnd(z: string, n: nat)
    requires z == [] || n == 0
    ensures Decoded(z, n) == []
  {}

  lemma TailFrom(z: string, p: nat)
    requires p <= |z|
    ensures SkipSpace(z[p..]) == z[if p < |z| && z[p] == ' ' then p + 1 else p..]
  {}

  // The loop of decodeIntArray over the integers: slots beyond the last number keep
  // what they held.
  method DecodeIntArray(z: string, out: array<nat>) returns (count: nat)
    modifies out
    ensures count <= out.Length && out[..count] == Decoded(z, out.Length)
    ensures forall k | count <= k < out.Length :: out[k] == old(out[k])
  {
    hide ReadNumber, Decoded, SkipSpace;
    var p, i := 0, 0;
    ghost var all, left := Decoded(z, out.Length), Decoded(z[0..], out.Length);
    assert z[0..] == z;
    while p < |z| && i < out.Length
      invariant 0 <= p <= |z| && 0 <= i <= out.Length
      invariant left == Decoded(z[p..], out.Length - i) && all == out[..i] + left
      invariant forall k | i <= k < out.Length :: out[k] == old(out[k])
      decreases out.Length - i
    {
      var v, next := ReadAt(z, p);
      DecodedNext(z[p..], out.Length - i, v, z[next..]);
      TailFrom(z, next);
      out[i] := v;
      assert out[..i + 1] == out[..i] + [v];
      i := i + 1;
      p := next;
      if p < |z| && z[p] == ' ' { p := p + 1; }
      left := Decoded(z[p..], out.Length - i);
    }
    DecodedEnd(z[p..], out.Length - i);
    count := i;
  }

  // ----- Round trip -------------------------------------------------------------------------

  function Value(s: string, v: nat): nat
    requires forall k | 0 <= k < |s| :: IsDigit(s[k])
  {
    if s == [] then v else Value(s[1..], (v * 10 + (s[0] as int - '0' as int)) % WORD)
  }

  lemma {:induction false} ValueLast(s: string, c: char, v: nat)
    requires (forall k | 0 <= k < |s| :: IsDigit(s[k])) && IsDigit(c)
    ensures forall k | 0 <= k < |s + [c]| :: IsDigit((s + [c])[k])
    ensures Value(s + [c], v) == (Value(s, v) * 10 + (c as int - '0' as int)) % WORD
  {
    if s != [] {
      assert (s + [c])[1..] == s[1..] + [c];
      ValueLast(s[1..], c, (v * 10 + (s[0] as int - '0' as int)) % WORD);
    }
  }

  lemma WrapStep(n: nat)
    ensures ((n / 10) % WORD * 10 + n % 10) % WORD == n % WORD
  {
    var q := n / 10;
    var m := q / WORD;
    assert q == m * WORD + q % WORD;
    assert n == q * 10 + n % 10;
    assert n == m * 10 * WORD + (q % WORD * 10 + n % 10);
    Shift(q % WORD * 10 + n % 10, m * 10);
  }

  lemma {:induction false} Shift(x: nat, m: nat)
    ensures (m * WORD + x) % WORD == x % WORD
    decreases m
  {
    if m > 0 {
      Shift(x, m - 1);
      assert m * WORD + x == (m - 1) * WORD + x + WORD;
    }
  }

  lemma {:induction false} DecimalValue(n: nat)
    ensures Value(Decimal(n), 0) == n % WORD
  {
    if n >= 10 {
      DecimalValue(n / 10);
      ValueLast(Decimal(n / 10), Digit(n % 10), 0);
      WrapStep(n);
    }
  }

  lemma {:induction false} ReadDigits(s: string, rest: string, v: nat)
    requires (forall k | 0 <= k < |s| :: IsDigit(s[k])) && (rest != [] ==> !IsDigit(rest[0]))
    ensures ReadNumber(s + rest, v) == (Value(s, v), rest)
  {
    if s == [] {
      assert s + rest == rest;
    } else {
      assert (s + rest)[1..] == s[1..] + rest;
      ReadDigits(s[1..], rest, (v * 10 + (s[0] as int - '0' as int)) % WORD);
    }
  }

  function Wrapped(ns: seq<nat>): seq<nat> { seq(|ns|, i requires 0 <= i < |ns| => ns[i] % WORD) }

  // Reading back what was printed gives the numbers modulo 2^64, however many slots
  // there are beyond them.
  lemma {:induction false} ReadBack(ns: seq<nat>, n: nat)
    requires |ns| <= n
    ensures Decoded(Joined(ns), n) == Wrapped(ns)
    decreases |ns|
  {
    if ns != [] {
      ReadOne(ns, n);
      ReadBack(ns[1..], n - 1);
      assert Wrapped(ns) == [ns[0] % WORD] + Wrapped(ns[1..]);
    }
  }

  // Decoding takes one number off the text.
  lemma ReadOne(ns: seq<nat>, n: nat)
    requires ns != [] && n > 0
    ensures Decoded(Joined(ns), n) == [ns[0] % WORD] + Decoded(Joined(ns[1..]), n - 1)
  {
    hide Decimal, Value, ReadNumber, Decoded;
    var rest := if |ns| == 1 then "" else " " + Joined(ns[1..]);
    assert Joined(ns) == Decimal(ns[0]) + rest;
    ReadDigits(Decimal(ns[0]), rest, 0);
    DecimalValue(ns[0]);
    DecodedNext(Joined(ns), n, ns[0] % WORD, rest);
    assert SkipSpace(rest) == Joined(ns[1..]);
  }

  // Counts that fit 64 bits come back unchanged, from a sample's text and from the
  // sqlite_stat1 line alike.
  lemma RoundTrip(ns: seq<nat>, n: nat)
    requires |ns| <= n && forall i | 0 <= i < |ns| :: ns[i] < WORD
    ensures Decoded(Joined(ns), n) == ns
  {
    ReadBack(ns, n);
    assert Wrapped(ns) == ns;
  }

  // With fewer slots than numbers the first ones are read.
  lemma {:induction false} ReadFirst(ns: seq<nat>, n: nat)
    requires n <= |ns|
    ensures Decoded(Joined(ns), n) == Wrapped(ns[..n])
    decreases n
  {
    if n == |ns| {
      assert ns[..n] == ns;
      ReadBack(ns, n);
    } else if n > 0 {
      ReadOne(ns, n);
      ReadFirst(ns[1..], n - 1);
      assert ns[..n][1..] == ns[1..][..n - 1];
      assert Wrapped(ns[..n]) == [ns[0] % WORD] + Wrapped(ns[1..][..n - 1]);
    }
  }
}
