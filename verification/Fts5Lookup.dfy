/** The compressed tables encode exactly the automaton: every lookup the parser
    can make stays inside its table and returns the automaton's move. */
module Fts5Lookup {
  import opened Fts5Tables

  // Entry i of the action table answers for state s and token t, or does not.
  predicate ShiftCell(s: int, t: int, i: int) {
    (if YyLookahead(i) != t then YyDefault(s) else YyAction(i)) == Act(s, t)
  }

  predicate ShiftRow(s: int, i: int) {
    && YyShiftOfst(s) == i
    && ShiftCell(s, 0, i + 0) && ShiftCell(s, 1, i + 1) && ShiftCell(s, 2, i + 2) && ShiftCell(s, 3, i + 3)
    && ShiftCell(s, 4, i + 4) && ShiftCell(s, 5, i + 5) && ShiftCell(s, 6, i + 6) && ShiftCell(s, 7, i + 7)
    && ShiftCell(s, 8, i + 8) && ShiftCell(s, 9, i + 9) && ShiftCell(s, 10, i + 10) && ShiftCell(s, 11, i + 11)
    && ShiftCell(s, 12, i + 12) && ShiftCell(s, 13, i + 13) && ShiftCell(s, 14, i + 14) && ShiftCell(s, 15, i + 15)
  }

  lemma ShiftRow0() ensures ShiftRow(0, 44) {}
  lemma ShiftRow1() ensures ShiftRow(1, 44) {}
  lemma ShiftRow2() ensures ShiftRow(2, 44) {}
  lemma ShiftRow3() ensures ShiftRow(3, 44) {}
  lemma ShiftRow4() ensures ShiftRow(4, 44) {}
  lemma ShiftRow5() ensures ShiftRow(5, 44) {}
  lemma ShiftRow6() ensures ShiftRow(6, 51) {}
  lemma ShiftRow7() ensures ShiftRow(7, 77) {}
  lemma ShiftRow8() ensures ShiftRow(8, 43) {}
  lemma ShiftRow9() ensures ShiftRow(9, 12) {}
  lemma ShiftRow10() ensures ShiftRow(10, 14) {}
  lemma ShiftRow11() ensures ShiftRow(11, 83) {}
  lemma ShiftRow12() ensures ShiftRow(12, 82) {}
  lemma ShiftRow13() ensures ShiftRow(13, 14) {}
  lemma ShiftRow14() ensures ShiftRow(14, 23) {}
  lemma ShiftRow15() ensures ShiftRow(15, 23) {}
  lemma ShiftRow16() ensures ShiftRow(16, 31) {}
  lemma ShiftRow17() ensures ShiftRow(17, 31) {}
  lemma ShiftRow18() ensures ShiftRow(18, 71) {}
  lemma ShiftRow19() ensures ShiftRow(19, 74) {}
  lemma ShiftRow20() ensures ShiftRow(20, 78) {}
  lemma ShiftRow21() ensures ShiftRow(21, 81) {}
  lemma ShiftRow22() ensures ShiftRow(22, 86) {}
  lemma ShiftRow23() ensures ShiftRow(23, 91) {}
  lemma ShiftRow24() ensures ShiftRow(24, 6) {}
  lemma ShiftRow25() ensures ShiftRow(25, 53) {}
  lemma ShiftRow26() ensures ShiftRow(26, 53) {}
  lemma ShiftRow27() ensures ShiftRow(27, 60) {}
  lemma ShiftRow28() ensures ShiftRow(28, 64) {}
  lemma ShiftRow29() ensures ShiftRow(29, 68) {}
  lemma ShiftRow30() ensures ShiftRow(30, 53) {}
  lemma ShiftRow31() ensures ShiftRow(31, 87) {}
  lemma ShiftRow32() ensures ShiftRow(32, 92) {}
  lemma ShiftRow33() ensures ShiftRow(33, 53) {}
  lemma ShiftRow34() ensures ShiftRow(34, 93) {}

  // Entry i of the action table belongs to state s and nonterminal n.
  predicate GotoCell(s: int, n: int, i: int) {
    YyReduceOfst(s) + n == i && YyLookahead(i) == n && YyAction(i) == Goto(s, n)
  }

  lemma GotoRow0()
    ensures GotoCell(0, 16, 0) && GotoCell(0, 17, 1) && GotoCell(0, 18, 2) && GotoCell(0, 19, 3) &&
      GotoCell(0, 20, 4) && GotoCell(0, 22, 6) && GotoCell(0, 24, 8)
  {}
  lemma GotoRow1()
    ensures GotoCell(1, 17, 9) && GotoCell(1, 18, 10) && GotoCell(1, 19, 11) && GotoCell(1, 20, 12) &&
      GotoCell(1, 22, 14) && GotoCell(1, 24, 16)
  {}
  lemma GotoRow2()
    ensures GotoCell(2, 17, 17) && GotoCell(2, 18, 18) && GotoCell(2, 19, 19) && GotoCell(2, 20, 20) &&
      GotoCell(2, 22, 22) && GotoCell(2, 24, 24)
  {}
  lemma GotoRow3()
    ensures GotoCell(3, 17, 26) && GotoCell(3, 18, 27) && GotoCell(3, 19, 28) && GotoCell(3, 20, 29) &&
      GotoCell(3, 22, 31) && GotoCell(3, 24, 33)
  {}
  lemma GotoRow4()
    ensures GotoCell(4, 17, 34) && GotoCell(4, 18, 35) && GotoCell(4, 19, 36) && GotoCell(4, 20, 37) &&
      GotoCell(4, 22, 39) && GotoCell(4, 24, 41)
  {}
  lemma GotoRow5()
    ensures GotoCell(5, 17, 42) && GotoCell(5, 18, 43) && GotoCell(5, 19, 44) && GotoCell(5, 20, 45) &&
      GotoCell(5, 22, 47) && GotoCell(5, 24, 49)
  {}
  lemma GotoRow6() ensures GotoCell(6, 18, 64) && GotoCell(6, 20, 66) && GotoCell(6, 22, 68) && GotoCell(6, 24, 70) {}
  lemma GotoRow7() ensures GotoCell(7, 22, 5) && GotoCell(7, 24, 7) {}
  lemma GotoRow8() ensures GotoCell(8, 22, 5) && GotoCell(8, 24, 7) {}
  lemma GotoRow9() ensures GotoCell(9, 24, 61) && GotoCell(9, 25, 62) {}
  lemma GotoRow10() ensures GotoCell(10, 23, 90) && GotoCell(10, 24, 91) {}
  lemma GotoRow11() ensures GotoCell(11, 26, 30) {}
  lemma GotoRow12() ensures GotoCell(12, 26, 30) {}
  lemma GotoRow13() ensures GotoCell(13, 24, 32) {}
  lemma GotoRow14() ensures GotoCell(14, 26, 30) {}
  lemma GotoRow15() ensures GotoCell(15, 26, 46) {}
  lemma GotoRow16() ensures GotoCell(16, 21, 48) {}
  lemma GotoRow17() ensures GotoCell(17, 21, 59) {}

  lemma ShiftRows(s: int)
    requires 0 <= s <= YY_MAX_SHIFT
    ensures ShiftRow(s, YyShiftOfst(s)) && 0 <= YyShiftOfst(s) <= 93
  {
    hide ShiftCell, YyShiftOfst;
    match s {
      case 0 => ShiftRow0();
      case 1 => ShiftRow1();
      case 2 => ShiftRow2();
      case 3 => ShiftRow3();
      case 4 => ShiftRow4();
      case 5 => ShiftRow5();
      case 6 => ShiftRow6();
      case 7 => ShiftRow7();
      case 8 => ShiftRow8();
      case 9 => ShiftRow9();
      case 10 => ShiftRow10();
      case 11 => ShiftRow11();
      case 12 => ShiftRow12();
      case 13 => ShiftRow13();
      case 14 => ShiftRow14();
      case 15 => ShiftRow15();
      case 16 => ShiftRow16();
      case 17 => ShiftRow17();
      case 18 => ShiftRow18();
      case 19 => ShiftRow19();
      case 20 => ShiftRow20();
      case 21 => ShiftRow21();
      case 22 => ShiftRow22();
      case 23 => ShiftRow23();
      case 24 => ShiftRow24();
      case 25 => ShiftRow25();
      case 26 => ShiftRow26();
      case 27 => ShiftRow27();
      case 28 => ShiftRow28();
      case 29 => ShiftRow29();
      case 30 => ShiftRow30();
      case 31 => ShiftRow31();
      case 32 => ShiftRow32();
      case 33 => ShiftRow33();
      case 34 => ShiftRow34();
      case _ => assert false;
    }
  }

  lemma LookaheadPad(i: int)
    requires YY_ACTTAB_COUNT <= i < YY_NLOOKAHEAD
    ensures YyLookahead(i) == 27
  {}

  // The shift lookup keeps its asserts and returns the automaton's action.
  lemma ShiftTable(s: int, t: int)
    requires 0 <= s <= YY_MAX_REDUCE && 0 <= t < YYNTOKEN
    ensures s <= YY_MAX_SHIFT ==> ShiftInRange(s, t)
    ensures FindShiftAction(s, t) == Act(s, t)
  {
    hide YyLookahead, YyAction, YyDefault, YyShiftOfst;
    if s <= YY_MAX_SHIFT {
      hide Act;
      ShiftRows(s);
      if YY_ACTTAB_COUNT <= YyShiftOfst(s) + t { LookaheadPad(YyShiftOfst(s) + t); }
      assert ShiftCell(s, t, YyShiftOfst(s) + t);
    }
  }

  // The goto lookup keeps its asserts and returns the automaton's state.
  lemma GotoTable(s: int, n: int)
    requires Goto(s, n) != -1
    ensures ReduceInRange(s, n) && FindReduceAction(s, n) == Goto(s, n)
  {
    hide YyLookahead, YyAction, YyReduceOfst;
    match s {
      case 0 => GotoRow0();
      case 1 => GotoRow1();
      case 2 => GotoRow2();
      case 3 => GotoRow3();
      case 4 => GotoRow4();
      case 5 => GotoRow5();
      case 6 => GotoRow6();
      case 7 => GotoRow7();
      case 8 => GotoRow8();
      case 9 => GotoRow9();
      case 10 => GotoRow10();
      case 11 => GotoRow11();
      case 12 => GotoRow12();
      case 13 => GotoRow13();
      case 14 => GotoRow14();
      case 15 => GotoRow15();
      case 16 => GotoRow16();
      case 17 => GotoRow17();
      case _ =>
    }
  }

  // The two rule tables describe the rules.
  lemma RuleTable(r: int)
    requires 0 <= r < YYNRULE
    ensures YyRuleInfoLhs(r) == Lhs(r) && YyRuleInfoNRhs(r) == -|Rhs(r)|
  {}

}
