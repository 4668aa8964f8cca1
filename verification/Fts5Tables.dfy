/** The LALR(1) tables of the FTS5 query parser as the parser generator wrote
    them, the two lookup routines, and the automaton the tables encode. */
module Fts5Tables {

  // Token codes; 0 is the end of the input.
  const EOF := 0
  const OR := 1
  const AND := 2
  const NOT := 3
  const TERM := 4
  const COLON := 5
  const MINUS := 6
  const LCP := 7
  const RCP := 8
  const STRING := 9
  const LP := 10
  const RP := 11
  const CARET := 12
  const COMMA := 13
  const PLUS := 14
  const STAR := 15

  // Nonterminals.
  const INPUT := 16
  const EXPR := 17
  const CNEARSET := 18
  const EXPRLIST := 19
  const COLSET := 20
  const COLSETLIST := 21
  const NEARSET := 22
  const NEARPHRASES := 23
  const PHRASE := 24
  const NEARDIST_OPT := 25
  const STAR_OPT := 26

  const YYNTOKEN := 16
  const YYNSTATE := 35
  const YYNRULE := 28
  const YY_MAX_SHIFT := 34
  const YY_MIN_SHIFTREDUCE := 52
  const YY_MAX_SHIFTREDUCE := 79
  const YY_ERROR_ACTION := 80
  const YY_ACCEPT_ACTION := 81
  const YY_MIN_REDUCE := 83
  const YY_MAX_REDUCE := 110
  const YY_ACTTAB_COUNT := 105
  const YY_NLOOKAHEAD := 121
  const YY_REDUCE_COUNT := 17

  // ----- The generated tables, ten entries a line ---------------------------------

  function Ten(k: int, a0: int, a1: int, a2: int, a3: int, a4: int, a5: int, a6: int, a7: int, a8: int, a9: int): int {
    if k == 0 then a0 else if k == 1 then a1 else if k == 2 then a2 else if k == 3 then a3 else if k == 4 then a4
    else if k == 5 then a5 else if k == 6 then a6 else if k == 7 then a7 else if k == 8 then a8 else a9
  }

  function YyAction(i: int): int {
    if i < 10 then Ten(i, 81, 20, 96, 6, 28, 99, 98, 26, 26, 18)
    else if i < 20 then Ten(i - 10, 96, 6, 28, 17, 98, 56, 26, 19, 96, 6)
    else if i < 30 then Ten(i - 20, 28, 14, 98, 14, 26, 31, 92, 96, 6, 28)
    else if i < 40 then Ten(i - 30, 108, 98, 25, 26, 21, 96, 6, 28, 78, 98)
    else if i < 50 then Ten(i - 40, 58, 26, 29, 96, 6, 28, 107, 98, 22, 26)
    else if i < 60 then Ten(i - 50, 24, 16, 12, 11, 1, 13, 13, 24, 16, 23)
    else if i < 70 then Ten(i - 60, 11, 33, 34, 13, 97, 8, 27, 32, 98, 7)
    else if i < 80 then Ten(i - 70, 26, 3, 4, 5, 3, 4, 5, 3, 83, 4)
    else if i < 90 then Ten(i - 80, 5, 3, 63, 5, 3, 62, 12, 2, 86, 13)
    else if i < 100 then Ten(i - 90, 9, 30, 10, 10, 54, 57, 75, 78, 78, 53)
    else Ten(i - 100, 57, 15, 82, 82, 71, 0, 0, 0, 0, 0)
  }

  function YyLookahead(i: int): int {
    if i < 10 then Ten(i, 16, 17, 18, 19, 20, 22, 22, 24, 24, 17)
    else if i < 20 then Ten(i - 10, 18, 19, 20, 7, 22, 9, 24, 17, 18, 19)
    else if i < 30 then Ten(i - 20, 20, 9, 22, 9, 24, 13, 17, 18, 19, 20)
    else if i < 40 then Ten(i - 30, 26, 22, 24, 24, 17, 18, 19, 20, 15, 22)
    else if i < 50 then Ten(i - 40, 9, 24, 17, 18, 19, 20, 26, 22, 21, 24)
    else if i < 60 then Ten(i - 50, 6, 7, 9, 9, 10, 12, 12, 6, 7, 21)
    else if i < 70 then Ten(i - 60, 9, 24, 25, 12, 18, 5, 20, 14, 22, 5)
    else if i < 80 then Ten(i - 70, 24, 3, 1, 2, 3, 1, 2, 3, 0, 1)
    else if i < 90 then Ten(i - 80, 2, 3, 11, 2, 3, 11, 9, 10, 5, 12)
    else if i < 100 then Ten(i - 90, 23, 24, 10, 10, 8, 9, 9, 15, 15, 8)
    else if i < 110 then Ten(i - 100, 9, 9, 27, 27, 11, 27, 27, 27, 27, 27)
    else if i < 120 then Ten(i - 110, 27, 27, 27, 27, 27, 27, 27, 27, 27, 27)
    else Ten(i - 120, 27, 0, 0, 0, 0, 0, 0, 0, 0, 0)
  }

  function YyShiftOfst(i: int): int {
    if i < 10 then Ten(i, 44, 44, 44, 44, 44, 44, 51, 77, 43, 12)
    else if i < 20 then Ten(i - 10, 14, 83, 82, 14, 23, 23, 31, 31, 71, 74)
    else if i < 30 then Ten(i - 20, 78, 81, 86, 91, 6, 53, 53, 60, 64, 68)
    else Ten(i - 30, 53, 87, 92, 53, 93, 0, 0, 0, 0, 0)
  }

  function YyReduceOfst(i: int): int {
    if i < 10 then Ten(i, -16, -8, 0, 9, 17, 25, 46, -17, -17, 37)
    else Ten(i - 10, 67, 4, 4, 8, 4, 20, 27, 38, 0, 0)
  }

  function YyDefault(i: int): int {
    if i < 10 then Ten(i, 80, 80, 80, 80, 80, 80, 95, 80, 80, 105)
    else if i < 20 then Ten(i - 10, 80, 110, 110, 80, 110, 110, 80, 80, 80, 80)
    else if i < 30 then Ten(i - 20, 80, 91, 80, 80, 80, 101, 100, 80, 80, 90)
    else Ten(i - 30, 103, 80, 80, 104, 80, 0, 0, 0, 0, 0)
  }

  function YyRuleInfoLhs(i: int): int {
    if i < 10 then Ten(i, 16, 20, 20, 20, 20, 21, 21, 17, 17, 17)
    else if i < 20 then Ten(i - 10, 17, 17, 17, 19, 19, 18, 18, 22, 22, 22)
    else Ten(i - 20, 23, 23, 25, 25, 24, 24, 26, 26, 0, 0)
  }

  function YyRuleInfoNRhs(i: int): int {
    if i < 10 then Ten(i, -1, -4, -3, -1, -2, -2, -1, -3, -3, -3)
    else if i < 20 then Ten(i - 10, -5, -3, -1, -1, -2, -1, -3, -1, -2, -5)
    else Ten(i - 20, -1, -2, 0, -2, -4, -2, -1, 0, 0, 0)
  }

  // ----- Lookup -----------------------------------------------------------------

  // The asserts of the shift lookup.
  predicate ShiftInRange(state: int, la: int) {
    && 0 <= YyShiftOfst(state) <= YY_ACTTAB_COUNT
    && YyShiftOfst(state) + YYNTOKEN <= YY_NLOOKAHEAD
    && (YyLookahead(YyShiftOfst(state) + la) == la ==> YyShiftOfst(state) + la < YY_ACTTAB_COUNT)
  }

  function FindShiftAction(state: int, la: int): int {
    if state > YY_MAX_SHIFT then state
    else if YyLookahead(YyShiftOfst(state) + la) != la then YyDefault(state)
    else YyAction(YyShiftOfst(state) + la)
  }

  // The asserts of the goto lookup.
  predicate ReduceInRange(state: int, nt: int) {
    && 0 <= state <= YY_REDUCE_COUNT
    && 0 <= YyReduceOfst(state) + nt < YY_ACTTAB_COUNT
    && YyLookahead(YyReduceOfst(state) + nt) == nt
  }

  function FindReduceAction(state: int, nt: int): int
    requires ReduceInRange(state, nt)
  {
    YyAction(YyReduceOfst(state) + nt)
  }

  // ----- The rules ----------------------------------------------------------------

  function Rhs(r: int): seq<int> {
    match r
    case 0 => [EXPR]
    case 1 => [MINUS, LCP, COLSETLIST, RCP]
    case 2 => [LCP, COLSETLIST, RCP]
    case 3 => [STRING]
    case 4 => [MINUS, STRING]
    case 5 => [COLSETLIST, STRING]
    case 6 => [STRING]
    case 7 => [EXPR, AND, EXPR]
    case 8 => [EXPR, OR, EXPR]
    case 9 => [EXPR, NOT, EXPR]
    case 10 => [COLSET, COLON, LP, EXPR, RP]
    case 11 => [LP, EXPR, RP]
    case 12 => [EXPRLIST]
    case 13 => [CNEARSET]
    case 14 => [EXPRLIST, CNEARSET]
    case 15 => [NEARSET]
    case 16 => [COLSET, COLON, NEARSET]
    case 17 => [PHRASE]
    case 18 => [CARET, PHRASE]
    case 19 => [STRING, LP, NEARPHRASES, NEARDIST_OPT, RP]
    case 20 => [PHRASE]
    case 21 => [NEARPHRASES, PHRASE]
    case 22 => []
    case 23 => [COMMA, STRING]
    case 24 => [PHRASE, PLUS, STRING, STAR_OPT]
    case 25 => [STRING, STAR_OPT]
    case 26 => [STAR]
    case 27 => []
    case _ => []
  }

  function Lhs(r: int): int {
    match r
    case 0 => INPUT
    case 1 | 2 | 3 | 4 => COLSET
    case 5 | 6 => COLSETLIST
    case 7 | 8 | 9 | 10 | 11 | 12 => EXPR
    case 13 | 14 => EXPRLIST
    case 15 | 16 => CNEARSET
    case 17 | 18 | 19 => NEARSET
    case 20 | 21 => NEARPHRASES
    case 22 | 23 => NEARDIST_OPT
    case 24 | 25 => PHRASE
    case 26 | 27 => STAR_OPT
    case _ => EOF
  }

  // ----- The automaton ------------------------------------------------------------

  // Action of state s on token t: at most 34 shift, 52-79 shift and reduce,
  // 80 error, 81 accept, 83 and up reduce by rule a-83.  A number above 34 is a
  // pending action: it is its own action on every token.
  function Act(s: int, t: int): int {
    match s
    case 0 | 1 | 2 | 3 | 4 | 5 =>
      if t == MINUS then 24 else if t == LCP then 16 else if t == STRING then 11 else if t == LP then 1
      else if t == CARET then 13 else 80
    case 6 =>
      if t == MINUS then 24 else if t == LCP then 16 else if t == STRING then 11 else if t == CARET then 13 else 95
    case 7 => if t == STRING then 12 else if t == LP then 2 else if t == CARET then 13 else 80
    case 8 => if t == STRING then 12 else if t == CARET then 13 else 80
    case 9 => if t == STRING then 14 else if t == COMMA then 31 else 105
    case 10 | 13 => if t == STRING then 14 else 80
    case 11 => if t == COLON then 86 else if t == LP then 10 else if t == STAR then 78 else 110
    case 12 => if t == LP then 10 else if t == STAR then 78 else 110
    case 14 | 15 => if t == STAR then 78 else 110
    case 16 | 17 => if t == STRING then 58 else 80
    case 18 => if t == OR then 4 else if t == AND then 5 else if t == NOT then 3 else if t == RP then 63 else 80
    case 19 => if t == OR then 4 else if t == AND then 5 else if t == NOT then 3 else if t == RP then 62 else 80
    case 20 => if t == EOF then 83 else if t == OR then 4 else if t == AND then 5 else if t == NOT then 3 else 80
    case 21 => if t == AND then 5 else if t == NOT then 3 else 91
    case 22 => if t == RCP then 54 else if t == STRING then 57 else 80
    case 23 => if t == RCP then 53 else if t == STRING then 57 else 80
    case 24 => if t == LCP then 17 else if t == STRING then 56 else 80
    case 25 => if t == PLUS then 32 else 101
    case 26 => if t == PLUS then 32 else 100
    case 27 => if t == COLON then 8 else 80
    case 28 => if t == COLON then 7 else 80
    case 29 => if t == NOT then 3 else 90
    case 30 => if t == PLUS then 32 else 103
    case 31 => if t == STRING then 75 else 80
    case 32 => if t == STRING then 15 else 80
    case 33 => if t == PLUS then 32 else 104
    case 34 => if t == RP then 71 else 80
    case _ => s
  }

  // The state reached from s over nonterminal n, or -1.
  function Goto(s: int, n: int): int {
    match s
    case 0 =>
      if n == INPUT then 81 else if n == EXPR then 20 else if n == CNEARSET then 96 else if n == EXPRLIST then 6
      else if n == COLSET then 28 else if n == NEARSET then 98 else if n == PHRASE then 26 else -1
    case 1 =>
      if n == EXPR then 18 else if n == CNEARSET then 96 else if n == EXPRLIST then 6 else if n == COLSET then 28
      else if n == NEARSET then 98 else if n == PHRASE then 26 else -1
    case 2 =>
      if n == EXPR then 19 else if n == CNEARSET then 96 else if n == EXPRLIST then 6 else if n == COLSET then 28
      else if n == NEARSET then 98 else if n == PHRASE then 26 else -1
    case 3 =>
      if n == EXPR then 92 else if n == CNEARSET then 96 else if n == EXPRLIST then 6 else if n == COLSET then 28
      else if n == NEARSET then 98 else if n == PHRASE then 26 else -1
    case 4 =>
      if n == EXPR then 21 else if n == CNEARSET then 96 else if n == EXPRLIST then 6 else if n == COLSET then 28
      else if n == NEARSET then 98 else if n == PHRASE then 26 else -1
    case 5 =>
      if n == EXPR then 29 else if n == CNEARSET then 96 else if n == EXPRLIST then 6 else if n == COLSET then 28
      else if n == NEARSET then 98 else if n == PHRASE then 26 else -1
    case 6 =>
      if n == CNEARSET then 97 else if n == COLSET then 27 else if n == NEARSET then 98 else if n == PHRASE then 26
      else -1
    case 7 | 8 => if n == NEARSET then 99 else if n == PHRASE then 26 else -1
    case 9 => if n == PHRASE then 33 else if n == NEARDIST_OPT then 34 else -1
    case 10 => if n == NEARPHRASES then 9 else if n == PHRASE then 30 else -1
    case 11 | 12 | 14 => if n == STAR_OPT then 108 else -1
    case 13 => if n == PHRASE then 25 else -1
    case 15 => if n == STAR_OPT then 107 else -1
    case 16 => if n == COLSETLIST then 22 else -1
    case 17 => if n == COLSETLIST then 23 else -1
    case _ => -1
  }
}
