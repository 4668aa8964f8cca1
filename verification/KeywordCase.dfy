/** What the lookup answers in terms of the keywords as words: letters match in either
    case, and nothing else does. */
module KeywordCase {
  import opened KeywordTables
  import opened KeywordFacts
  import opened KeywordWords
  import opened KeywordLookup

  lemma {:induction false} AgreesAt(o: int, w: string, n: nat, d: nat)
    requires n <= |w| && Agrees(o, w, n) && d < n
    ensures KwText(o + d) == Code(w[d]) != 0
  {
    hide KwText, Code;
    if d < n - 1 { AgreesAt(o, w, n - 1, d); }
  }

  // The letters of a keyword are those of its word.
  lemma WordLetters(k: int, w: string)
    requires SpelledAs(k, w)
    ensures KwLen(k) == |w| && forall d | 0 <= d < |w| :: Letter(k, d) == Code(w[d]) != 0
  {
    hide KwText, Code, Agrees;
    forall d | 0 <= d < |w| ensures Letter(k, d) == Code(w[d]) != 0 { AgreesAt(KwOffset(k), w, |w|, d); }
  }

  // ----- Case ---------------------------------------------------------------------------

  // The upper-case form of an ASCII letter; other bytes are left alone.
  function Upcase(c: bv8): bv8 { if 97 <= c <= 122 then c - 32 else c }

  predicate SameButCase(z: seq<bv8>, y: seq<bv8>) {
    |z| == |y| && forall d | 0 <= d < |z| :: Upcase(z[d]) == Upcase(y[d])
  }

  lemma CaseFolds(c: bv8, d: bv8)
    requires Upcase(c) == Upcase(d)
    ensures Fold(c) == Fold(d)
  {}

  // Texts that differ only in the case of letters get the same answer.
  lemma CaseIgnored(z: seq<bv8>, y: seq<bv8>)
    requires SameButCase(z, y)
    ensures Search(z, 1) == Search(y, 1)
  {
    SearchCase(z, y, 1);
  }

  lemma {:induction false} SearchCase(z: seq<bv8>, y: seq<bv8>, k: int)
    requires SameButCase(z, y) && 0 < k <= SQLITE_N_KEYWORD + 1
    ensures Search(z, k) == Search(y, k)
    decreases SQLITE_N_KEYWORD - k
  {
    hide Upcase, Fold, KwLen, Letter;
    forall d | 0 <= d < |z| ensures Fold(z[d]) == Fold(y[d]) { CaseFolds(z[d], y[d]); }
    if k <= SQLITE_N_KEYWORD { SearchCase(z, y, k + 1); }
  }

  // ----- The words found --------------------------------------------------------------------

  // Byte c is the character w in either case.  The delete character passes for an
  // underscore: it differs from it only in the bit that is masked.
  predicate Passes(c: bv8, w: char) { Upcase(c) == Code(w) || (w == '_' && c == 127) }

  predicate Reads(z: seq<bv8>, w: string) { |z| == |w| && forall d | 0 <= d < |z| :: Passes(z[d], w[d]) }

  lemma FoldPasses(c: bv8, w: char)
    requires Code(w) != 0
    ensures Fold(c) == Code(w) <==> Passes(c, w)
  {
    CodeRange(w);
    FoldLetter(c, Code(w));
  }

  lemma CodeRange(w: char)
    requires Code(w) != 0
    ensures 65 <= Code(w) <= 90 || Code(w) == 95
    ensures Code(w) == 95 <==> w == '_'
  {}

  lemma FoldLetter(c: bv8, a: bv8)
    requires 65 <= a <= 90 || a == 95
    ensures Fold(c) == a <==> Upcase(c) == a || (a == 95 && c == 127)
  {}

  // The codes are those of the characters.
  lemma CodeIs(w: char)
    requires Code(w) != 0
    ensures Code(w) as int == w as int
  {}

  lemma MatchReads(z: seq<bv8>, k: int, w: string)
    requires SpelledAs(k, w)
    ensures Match(z, k) <==> Reads(z, w)
  {
    hide SpelledAs, Code, Fold, Passes, KwLen, Letter;
    WordLetters(k, w);
    if |z| == |w| {
      forall d | 0 <= d < |z| ensures Fold(z[d]) == Letter(k, d) <==> Passes(z[d], w[d]) { FoldPasses(z[d], w[d]); }
    }
  }

  // Keyword k is the answer if and only if the text reads as its word, in any mix of
  // cases; 0 is if it reads as none.
  lemma FoundIs(z: seq<bv8>, k: int, w: string)
    requires 2 <= |z| < 0x8000_0000_0000_0000 && 0 < k <= SQLITE_N_KEYWORD && SpelledAs(k, w)
    ensures Search(z, 1) == k <==> Reads(z, w)
    ensures Search(z, 1) == 0 ==> !Reads(z, w)
  {
    hide Search, Match, Reads, SpelledAs;
    SearchIs(z, 1, k);
    MatchReads(z, k, w);
    if Match(z, k) && Search(z, 1) != 0 { OneMatch(z, k, Search(z, 1)); }
  }

  // "select" and "SeLeCt" are SELECT.
  lemma SelectFound()
    ensures Search([115, 101, 108, 101, 99, 116], 1) == 19 && Search([83, 101, 76, 101, 67, 116], 1) == 19
  {
    hide Search, SpelledAs;
    Words19();
    FoundIs([115, 101, 108, 101, 99, 116], 19, "SELECT");
    FoundIs([83, 101, 76, 101, 67, 116], 19, "SELECT");
  }
}
