/** Every keyword is in the chain of its own slot, chains are short, and no two keywords
    of one chain are spelled alike. */
module KeywordChains {
  import opened KeywordTables
  import opened KeywordFacts

  // No chain is longer than four.
  lemma ChainEnds(i: int)
    requires 0 <= i <= SQLITE_N_KEYWORD
    ensures 0 <= KwNext(i) <= SQLITE_N_KEYWORD
    ensures KwNext(KwNext(KwNext(KwNext(i)))) == 0
  {}

  // A chain starts at a keyword or is empty.
  lemma HeadRange(h: int)
    requires 0 <= h < 127
    ensures 0 <= KwHash(h) <= SQLITE_N_KEYWORD
  {}

  // Each keyword lies inside the text and in the chain its own letters lead to.
  lemma AllPlaced(k: int)
    requires 0 < k <= SQLITE_N_KEYWORD
    ensures Placed(k)
  {
    hide Placed;
    if k < 22 {
      Placed1(k);
    } else if k < 43 {
      Placed22(k);
    } else if k < 64 {
      Placed43(k);
    } else if k < 85 {
      Placed64(k);
    } else if k < 106 {
      Placed85(k);
    } else if k < 127 {
      Placed106(k);
    } else {
      Placed127(k);
    }
  }

  // No two keywords of a chain are spelled alike.
  lemma Distinct(h: int, i: int, j: int)
    requires 0 <= h < 127 && 0 < i < j && OnPath(h, i) && OnPath(h, j)
    ensures !SameText(i, j)
  {
    hide OnPath, SameText;
    if h < 8 {
      Distinct0(h, i, j);
    } else if h < 16 {
      Distinct8(h, i, j);
    } else if h < 24 {
      Distinct16(h, i, j);
    } else if h < 32 {
      Distinct24(h, i, j);
    } else if h < 40 {
      Distinct32(h, i, j);
    } else if h < 48 {
      Distinct40(h, i, j);
    } else if h < 56 {
      Distinct48(h, i, j);
    } else if h < 64 {
      Distinct56(h, i, j);
    } else if h < 72 {
      Distinct64(h, i, j);
    } else if h < 80 {
      Distinct72(h, i, j);
    } else if h < 88 {
      Distinct80(h, i, j);
    } else if h < 96 {
      Distinct88(h, i, j);
    } else if h < 104 {
      Distinct96(h, i, j);
    } else if h < 112 {
      Distinct104(h, i, j);
    } else if h < 120 {
      Distinct112(h, i, j);
    } else {
      Distinct120(h, i, j);
    }
  }
}
