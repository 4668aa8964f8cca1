/** The 147 keywords written as words, and where the table's text spells them. */
module KeywordWords {
  import opened KeywordTables
  import opened KeywordFacts

  // The character code of a letter or an underscore.
  function Code(c: char): bv8 {
    match c
    case 'A' => 65 case 'B' => 66 case 'C' => 67 case 'D' => 68 case 'E' => 69 case 'F' => 70 case 'G' => 71
    case 'H' => 72 case 'I' => 73 case 'J' => 74 case 'K' => 75 case 'L' => 76 case 'M' => 77 case 'N' => 78
    case 'O' => 79 case 'P' => 80 case 'Q' => 81 case 'R' => 82 case 'S' => 83 case 'T' => 84 case 'U' => 85
    case 'V' => 86 case 'W' => 87 case 'X' => 88 case 'Y' => 89 case 'Z' => 90 case '_' => 95
    case _ => 0
  }

  // The text from o on begins with the first n letters of w.
  predicate Agrees(o: int, w: string, n: nat)
    requires n <= |w|
  {
    n == 0 || (KwText(o + n - 1) == Code(w[n - 1]) != 0 && Agrees(o, w, n - 1))
  }

  // Keyword k is the word w.
  predicate SpelledAs(k: int, w: string) { KwLen(k) == |w| && Agrees(KwOffset(k), w, |w|) }

  // The letters, where they are in the text.
  lemma Letters1()
    ensures Agrees(0, "REINDEX", 7)
  {
    assert Agrees(0, "REINDEX", 4);
  }
  lemma Letters2()
    ensures Agrees(2, "INDEXED", 7) && Agrees(2, "INDEX", 5)
  {
    assert Agrees(2, "INDEXED", 4);
  }
  lemma Letters4() ensures Agrees(8, "DESC", 4) && Agrees(9, "ESCAPE", 6) {}
  lemma Letters6() ensures Agrees(14, "EACH", 4) && Agrees(16, "CHECK", 5) && Agrees(20, "KEY", 3) {}
  lemma Letters9()
    ensures Agrees(23, "BEFORE", 6) && Agrees(25, "FOREIGN", 7)
  {
    assert Agrees(25, "FOREIGN", 4);
  }
  lemma Letters11() ensures Agrees(25, "FOR", 3) && Agrees(29, "IGNORE", 6) {}
  lemma Letters13()
    ensures Agrees(33, "REGEXP", 6) && Agrees(36, "EXPLAIN", 7)
  {
    assert Agrees(36, "EXPLAIN", 4);
  }
  lemma Letters15()
    ensures Agrees(41, "INSTEAD", 7) && Agrees(46, "ADD", 3)
  {
    assert Agrees(41, "INSTEAD", 4);
  }
  lemma Letters17()
    ensures Agrees(48, "DATABASE", 8) && Agrees(53, "AS", 2)
  {
    assert Agrees(48, "DATABASE", 4);
  }
  lemma Letters19() ensures Agrees(54, "SELECT", 6) && Agrees(59, "TABLE", 5) {}
  lemma Letters21() ensures Agrees(62, "LEFT", 4) && Agrees(65, "THEN", 4) && Agrees(67, "END", 3) {}
  lemma Letters24()
    ensures Agrees(69, "DEFERRABLE", 10)
  {
    assert Agrees(69, "DEFERRABLE", 4);
    assert Agrees(69, "DEFERRABLE", 8);
  }
  lemma Letters25()
    ensures Agrees(78, "ELSE", 4) && Agrees(81, "EXCLUDE", 7)
  {
    assert Agrees(81, "EXCLUDE", 4);
  }
  lemma Letters27() ensures Agrees(86, "DELETE", 6) {}
  lemma Letters28()
    ensures Agrees(90, "TEMPORARY", 9) && Agrees(90, "TEMP", 4)
  {
    assert Agrees(90, "TEMPORARY", 4);
  }
  lemma Letters30() ensures Agrees(94, "OR", 2) && Agrees(99, "ISNULL", 6) && Agrees(101, "NULLS", 5) {}
  lemma Letters33()
    ensures Agrees(105, "SAVEPOINT", 9)
  {
    assert Agrees(105, "SAVEPOINT", 4);
  }
  lemma Letters34()
    ensures Agrees(111, "INTERSECT", 9) && Agrees(119, "TIES", 4)
  {
    assert Agrees(111, "INTERSECT", 4);
  }
  lemma Letters36()
    ensures Agrees(123, "NOTNULL", 7) && Agrees(123, "NOT", 3) && Agrees(123, "NO", 2)
  {
    assert Agrees(123, "NOTNULL", 4);
  }
  lemma Letters39() ensures Agrees(126, "NULL", 4) && Agrees(129, "LIKE", 4) {}
  lemma Letters41() ensures Agrees(132, "EXCEPT", 6) {}
  lemma Letters42()
    ensures Agrees(137, "TRANSACTION", 11)
  {
    assert Agrees(137, "TRANSACTION", 4);
    assert Agrees(137, "TRANSACTION", 8);
  }
  lemma Letters43() ensures Agrees(142, "ACTION", 6) && Agrees(146, "ON", 2) {}
  lemma Letters45()
    ensures Agrees(147, "NATURAL", 7) && Agrees(152, "ALTER", 5)
  {
    assert Agrees(147, "NATURAL", 4);
  }
  lemma Letters47() ensures Agrees(156, "RAISE", 5) {}
  lemma Letters48()
    ensures Agrees(160, "EXCLUSIVE", 9)
  {
    assert Agrees(160, "EXCLUSIVE", 4);
  }
  lemma Letters49() ensures Agrees(168, "EXISTS", 6) {}
  lemma Letters50()
    ensures Agrees(174, "CONSTRAINT", 10)
  {
    assert Agrees(174, "CONSTRAINT", 4);
    assert Agrees(174, "CONSTRAINT", 8);
  }
  lemma Letters51() ensures Agrees(181, "INTO", 4) && Agrees(184, "OFFSET", 6) && Agrees(184, "OF", 2) {}
  lemma Letters54()
    ensures Agrees(187, "SET", 3) && Agrees(189, "TRIGGER", 7)
  {
    assert Agrees(189, "TRIGGER", 4);
  }
  lemma Letters56() ensures Agrees(195, "RANGE", 5) {}
  lemma Letters57()
    ensures Agrees(198, "GENERATED", 9)
  {
    assert Agrees(198, "GENERATED", 4);
  }
  lemma Letters58() ensures Agrees(206, "DETACH", 6) && Agrees(211, "HAVING", 6) {}
  lemma Letters60() ensures Agrees(216, "GLOB", 4) && Agrees(219, "BEGIN", 5) {}
  lemma Letters62() ensures Agrees(222, "INNER", 5) {}
  lemma Letters63()
    ensures Agrees(226, "REFERENCES", 10)
  {
    assert Agrees(226, "REFERENCES", 4);
    assert Agrees(226, "REFERENCES", 8);
  }
  lemma Letters64() ensures Agrees(236, "UNIQUE", 6) && Agrees(239, "QUERY", 5) {}
  lemma Letters66()
    ensures Agrees(244, "WITHOUT", 7) && Agrees(244, "WITH", 4)
  {
    assert Agrees(244, "WITHOUT", 4);
  }
  lemma Letters68()
    ensures Agrees(248, "OUTER", 5) && Agrees(252, "RELEASE", 7)
  {
    assert Agrees(252, "RELEASE", 4);
  }
  lemma Letters70()
    ensures Agrees(259, "ATTACH", 6) && Agrees(265, "BETWEEN", 7)
  {
    assert Agrees(265, "BETWEEN", 4);
  }
  lemma Letters72()
    ensures Agrees(271, "NOTHING", 7) && Agrees(277, "GROUPS", 6)
  {
    assert Agrees(271, "NOTHING", 4);
  }
  lemma Letters74()
    ensures Agrees(277, "GROUP", 5) && Agrees(283, "CASCADE", 7)
  {
    assert Agrees(283, "CASCADE", 4);
  }
  lemma Letters76()
    ensures Agrees(284, "ASC", 3) && Agrees(288, "DEFAULT", 7)
  {
    assert Agrees(288, "DEFAULT", 4);
  }
  lemma Letters78()
    ensures Agrees(295, "CASE", 4) && Agrees(299, "COLLATE", 7)
  {
    assert Agrees(299, "COLLATE", 4);
  }
  lemma Letters80() ensures Agrees(306, "CREATE", 6) {}
  lemma Letters81()
    ensures Agrees(312, "CURRENT_DATE", 12)
  {
    assert Agrees(312, "CURRENT_DATE", 4);
    assert Agrees(312, "CURRENT_DATE", 8);
  }
  lemma Letters82()
    ensures Agrees(324, "IMMEDIATE", 9) && Agrees(333, "JOIN", 4)
  {
    assert Agrees(324, "IMMEDIATE", 4);
  }
  lemma Letters84() ensures Agrees(335, "INSERT", 6) && Agrees(341, "MATCH", 5) {}
  lemma Letters86()
    ensures Agrees(346, "PLAN", 4) && Agrees(348, "ANALYZE", 7)
  {
    assert Agrees(348, "ANALYZE", 4);
  }
  lemma Letters88() ensures Agrees(355, "PRAGMA", 6) {}
  lemma Letters89()
    ensures Agrees(359, "MATERIALIZED", 12)
  {
    assert Agrees(359, "MATERIALIZED", 4);
    assert Agrees(359, "MATERIALIZED", 8);
  }
  lemma Letters90()
    ensures Agrees(370, "DEFERRED", 8)
  {
    assert Agrees(370, "DEFERRED", 4);
  }
  lemma Letters91()
    ensures Agrees(377, "DISTINCT", 8) && Agrees(378, "IS", 2)
  {
    assert Agrees(377, "DISTINCT", 4);
  }
  lemma Letters93() ensures Agrees(385, "UPDATE", 6) && Agrees(391, "VALUES", 6) {}
  lemma Letters95()
    ensures Agrees(397, "VIRTUAL", 7) && Agrees(402, "ALWAYS", 6)
  {
    assert Agrees(397, "VIRTUAL", 4);
  }
  lemma Letters97() ensures Agrees(408, "WHEN", 4) && Agrees(412, "WHERE", 5) {}
  lemma Letters99()
    ensures Agrees(415, "RECURSIVE", 9)
  {
    assert Agrees(415, "RECURSIVE", 4);
  }
  lemma Letters100() ensures Agrees(424, "ABORT", 5) && Agrees(429, "AFTER", 5) {}
  lemma Letters102() ensures Agrees(433, "RENAME", 6) && Agrees(439, "AND", 3) && Agrees(441, "DROP", 4) {}
  lemma Letters105()
    ensures Agrees(444, "PARTITION", 9)
  {
    assert Agrees(444, "PARTITION", 4);
  }
  lemma Letters106()
    ensures Agrees(453, "AUTOINCREMENT", 13)
  {
    assert Agrees(453, "AUTOINCREMENT", 4);
    assert Agrees(453, "AUTOINCREMENT", 8);
  }
  lemma Letters107() ensures Agrees(455, "TO", 2) && Agrees(457, "IN", 2) && Agrees(466, "CAST", 4) {}
  lemma Letters110() ensures Agrees(470, "COLUMN", 6) && Agrees(476, "COMMIT", 6) {}
  lemma Letters112()
    ensures Agrees(482, "CONFLICT", 8) && Agrees(490, "CROSS", 5)
  {
    assert Agrees(482, "CONFLICT", 4);
  }
  lemma Letters114Start() ensures Agrees(495, "CURRENT_TIMESTAMP", 8) {
    assert Agrees(495, "CURRENT_TIMESTAMP", 4);
  }
  lemma Letters114()
    ensures Agrees(495, "CURRENT_TIMESTAMP", 17)
  {
    Letters114Start();
    assert Agrees(495, "CURRENT_TIMESTAMP", 12);
  }
  lemma Letters115()
    ensures Agrees(495, "CURRENT_TIME", 12)
  {
    assert Agrees(495, "CURRENT_TIME", 4);
    assert Agrees(495, "CURRENT_TIME", 8);
  }
  lemma Letters116()
    ensures Agrees(495, "CURRENT", 7)
  {
    assert Agrees(495, "CURRENT", 4);
  }
  lemma Letters117()
    ensures Agrees(511, "PRECEDING", 9) && Agrees(520, "FAIL", 4)
  {
    assert Agrees(511, "PRECEDING", 4);
  }
  lemma Letters119() ensures Agrees(523, "LAST", 4) && Agrees(527, "FILTER", 6) {}
  lemma Letters121()
    ensures Agrees(532, "REPLACE", 7) && Agrees(539, "FIRST", 5)
  {
    assert Agrees(532, "REPLACE", 4);
  }
  lemma Letters123()
    ensures Agrees(544, "FOLLOWING", 9) && Agrees(553, "FROM", 4)
  {
    assert Agrees(544, "FOLLOWING", 4);
  }
  lemma Letters125() ensures Agrees(557, "FULL", 4) && Agrees(560, "LIMIT", 5) && Agrees(565, "IF", 2) {}
  lemma Letters128()
    ensures Agrees(567, "ORDER", 5) && Agrees(571, "RESTRICT", 8)
  {
    assert Agrees(571, "RESTRICT", 4);
  }
  lemma Letters130() ensures Agrees(579, "OTHERS", 6) && Agrees(585, "OVER", 4) {}
  lemma Letters132()
    ensures Agrees(588, "RETURNING", 9)
  {
    assert Agrees(588, "RETURNING", 4);
  }
  lemma Letters133()
    ensures Agrees(597, "RIGHT", 5) && Agrees(602, "ROLLBACK", 8)
  {
    assert Agrees(602, "ROLLBACK", 4);
  }
  lemma Letters135() ensures Agrees(610, "ROWS", 4) && Agrees(610, "ROW", 3) {}
  lemma Letters137()
    ensures Agrees(614, "UNBOUNDED", 9)
  {
    assert Agrees(614, "UNBOUNDED", 4);
  }
  lemma Letters138() ensures Agrees(623, "UNION", 5) && Agrees(628, "USING", 5) {}
  lemma Letters140() ensures Agrees(633, "VACUUM", 6) && Agrees(639, "VIEW", 4) {}
  lemma Letters142() ensures Agrees(642, "WINDOW", 6) && Agrees(645, "DO", 2) && Agrees(648, "BY", 2) {}
  lemma Letters145()
    ensures Agrees(650, "INITIALLY", 9) && Agrees(655, "ALL", 3)
  {
    assert Agrees(650, "INITIALLY", 4);
  }
  lemma Letters147()
    ensures Agrees(659, "PRIMARY", 7)
  {
    assert Agrees(659, "PRIMARY", 4);
  }

  lemma Words1()
    ensures SpelledAs(1, "REINDEX") && SpelledAs(2, "INDEXED") && SpelledAs(3, "INDEX") && SpelledAs(4, "DESC") &&
      SpelledAs(5, "ESCAPE") && SpelledAs(6, "EACH")
  {
    hide KwText, KwOffset, KwLen, Agrees;
    Letters1();
    Letters2();
    Letters4();
    Letters6();
    Spell1();
    Spell4();
  }
  lemma Words7()
    ensures SpelledAs(7, "CHECK") && SpelledAs(8, "KEY") && SpelledAs(9, "BEFORE") && SpelledAs(10, "FOREIGN") &&
      SpelledAs(11, "FOR") && SpelledAs(12, "IGNORE")
  {
    hide KwText, KwOffset, KwLen, Agrees;
    Letters6();
    Letters9();
    Letters11();
    Spell7();
    Spell10();
  }
  lemma Words13()
    ensures SpelledAs(13, "REGEXP") && SpelledAs(14, "EXPLAIN") && SpelledAs(15, "INSTEAD") &&
      SpelledAs(16, "ADD") && SpelledAs(17, "DATABASE") && SpelledAs(18, "AS")
  {
    hide KwText, KwOffset, KwLen, Agrees;
    Letters13();
    Letters15();
    Letters17();
    Spell13();
    Spell16();
  }
  lemma Words19()
    ensures SpelledAs(19, "SELECT") && SpelledAs(20, "TABLE") && SpelledAs(21, "LEFT") && SpelledAs(22, "THEN") &&
      SpelledAs(23, "END") && SpelledAs(24, "DEFERRABLE")
  {
    hide KwText, KwOffset, KwLen, Agrees;
    Letters19();
    Letters21();
    Letters24();
    Spell19();
    Spell22();
  }
  lemma Words25()
    ensures SpelledAs(25, "ELSE") && SpelledAs(26, "EXCLUDE") && SpelledAs(27, "DELETE") &&
      SpelledAs(28, "TEMPORARY") && SpelledAs(29, "TEMP") && SpelledAs(30, "OR")
  {
    hide KwText, KwOffset, KwLen, Agrees;
    Letters25();
    Letters27();
    Letters28();
    Letters30();
    Spell25();
    Spell28();
  }
  lemma Words31()
    ensures SpelledAs(31, "ISNULL") && SpelledAs(32, "NULLS") && SpelledAs(33, "SAVEPOINT") &&
      SpelledAs(34, "INTERSECT") && SpelledAs(35, "TIES") && SpelledAs(36, "NOTNULL")
  {
    hide KwText, KwOffset, KwLen, Agrees;
    Letters30();
    Letters33();
    Letters34();
    Letters36();
    Spell31();
    Spell34();
  }
  lemma Words37()
    ensures SpelledAs(37, "NOT") && SpelledAs(38, "NO") && SpelledAs(39, "NULL") && SpelledAs(40, "LIKE") &&
      SpelledAs(41, "EXCEPT") && SpelledAs(42, "TRANSACTION")
  {
    hide KwText, KwOffset, KwLen, Agrees;
    Letters36();
    Letters39();
    Letters41();
    Letters42();
    Spell37();
    Spell40();
  }
  lemma Words43()
    ensures SpelledAs(43, "ACTION") && SpelledAs(44, "ON") && SpelledAs(45, "NATURAL") && SpelledAs(46, "ALTER") &&
      SpelledAs(47, "RAISE") && SpelledAs(48, "EXCLUSIVE")
  {
    hide KwText, KwOffset, KwLen, Agrees;
    Letters43();
    Letters45();
    Letters47();
    Letters48();
    Spell43();
    Spell46();
  }
  lemma Words49()
    ensures SpelledAs(49, "EXISTS") && SpelledAs(50, "CONSTRAINT") && SpelledAs(51, "INTO") &&
      SpelledAs(52, "OFFSET") && SpelledAs(53, "OF") && SpelledAs(54, "SET")
  {
    hide KwText, KwOffset, KwLen, Agrees;
    Letters49();
    Letters50();
    Letters51();
    Letters54();
    Spell49();
    Spell52();
  }
  lemma Words55()
    ensures SpelledAs(55, "TRIGGER") && SpelledAs(56, "RANGE") && SpelledAs(57, "GENERATED") &&
      SpelledAs(58, "DETACH") && SpelledAs(59, "HAVING") && SpelledAs(60, "GLOB")
  {
    hide KwText, KwOffset, KwLen, Agrees;
    Letters54();
    Letters56();
    Letters57();
    Letters58();
    Letters60();
    Spell55();
    Spell58();
  }
  lemma Words61()
    ensures SpelledAs(61, "BEGIN") && SpelledAs(62, "INNER") && SpelledAs(63, "REFERENCES") &&
      SpelledAs(64, "UNIQUE") && SpelledAs(65, "QUERY") && SpelledAs(66, "WITHOUT")
  {
    hide KwText, KwOffset, KwLen, Agrees;
    Letters60();
    Letters62();
    Letters63();
    Letters64();
    Letters66();
    Spell61();
    Spell64();
  }
  lemma Words67()
    ensures SpelledAs(67, "WITH") && SpelledAs(68, "OUTER") && SpelledAs(69, "RELEASE") &&
      SpelledAs(70, "ATTACH") && SpelledAs(71, "BETWEEN") && SpelledAs(72, "NOTHING")
  {
    hide KwText, KwOffset, KwLen, Agrees;
    Letters66();
    Letters68();
    Letters70();
    Letters72();
    Spell67();
    Spell70();
  }
  lemma Words73()
    ensures SpelledAs(73, "GROUPS") && SpelledAs(74, "GROUP") && SpelledAs(75, "CASCADE") && SpelledAs(76, "ASC") &&
      SpelledAs(77, "DEFAULT") && SpelledAs(78, "CASE")
  {
    hide KwText, KwOffset, KwLen, Agrees;
    Letters72();
    Letters74();
    Letters76();
    Letters78();
    Spell73();
    Spell76();
  }
  lemma Words79()
    ensures SpelledAs(79, "COLLATE") && SpelledAs(80, "CREATE") && SpelledAs(81, "CURRENT_DATE") &&
      SpelledAs(82, "IMMEDIATE") && SpelledAs(83, "JOIN") && SpelledAs(84, "INSERT")
  {
    hide KwText, KwOffset, KwLen, Agrees;
    Letters78();
    Letters80();
    Letters81();
    Letters82();
    Letters84();
    Spell79();
    Spell82();
  }
  lemma Words85()
    ensures SpelledAs(85, "MATCH") && SpelledAs(86, "PLAN") && SpelledAs(87, "ANALYZE") &&
      SpelledAs(88, "PRAGMA") && SpelledAs(89, "MATERIALIZED") && SpelledAs(90, "DEFERRED")
  {
    hide KwText, KwOffset, KwLen, Agrees;
    Letters84();
    Letters86();
    Letters88();
    Letters89();
    Letters90();
    Spell85();
    Spell88();
  }
  lemma Words91()
    ensures SpelledAs(91, "DISTINCT") && SpelledAs(92, "IS") && SpelledAs(93, "UPDATE") &&
      SpelledAs(94, "VALUES") && SpelledAs(95, "VIRTUAL") && SpelledAs(96, "ALWAYS")
  {
    hide KwText, KwOffset, KwLen, Agrees;
    Letters91();
    Letters93();
    Letters95();
    Spell91();
    Spell94();
  }
  lemma Words97()
    ensures SpelledAs(97, "WHEN") && SpelledAs(98, "WHERE") && SpelledAs(99, "RECURSIVE") &&
      SpelledAs(100, "ABORT") && SpelledAs(101, "AFTER") && SpelledAs(102, "RENAME")
  {
    hide KwText, KwOffset, KwLen, Agrees;
    Letters97();
    Letters99();
    Letters100();
    Letters102();
    Spell97();
    Spell100();
  }
  lemma Words103()
    ensures SpelledAs(103, "AND") && SpelledAs(104, "DROP") && SpelledAs(105, "PARTITION") &&
      SpelledAs(106, "AUTOINCREMENT") && SpelledAs(107, "TO") && SpelledAs(108, "IN")
  {
    hide KwText, KwOffset, KwLen, Agrees;
    Letters102();
    Letters105();
    Letters106();
    Letters107();
    Spell103();
    Spell106();
  }
  lemma Words109()
    ensures SpelledAs(109, "CAST") && SpelledAs(110, "COLUMN") && SpelledAs(111, "COMMIT") &&
      SpelledAs(112, "CONFLICT") && SpelledAs(113, "CROSS") && SpelledAs(114, "CURRENT_TIMESTAMP")
  {
    hide KwText, KwOffset, KwLen, Agrees;
    Letters107();
    Letters110();
    Letters112();
    Letters114();
    Spell109();
    Spell112();
  }
  lemma Words115()
    ensures SpelledAs(115, "CURRENT_TIME") && SpelledAs(116, "CURRENT") && SpelledAs(117, "PRECEDING") &&
      SpelledAs(118, "FAIL") && SpelledAs(119, "LAST") && SpelledAs(120, "FILTER")
  {
    hide KwText, KwOffset, KwLen, Agrees;
    Letters115();
    Letters116();
    Letters117();
    Letters119();
    Spell115();
    Spell118();
  }
  lemma Words121()
    ensures SpelledAs(121, "REPLACE") && SpelledAs(122, "FIRST") && SpelledAs(123, "FOLLOWING") &&
      SpelledAs(124, "FROM") && SpelledAs(125, "FULL") && SpelledAs(126, "LIMIT")
  {
    hide KwText, KwOffset, KwLen, Agrees;
    Letters121();
    Letters123();
    Letters125();
    Spell121();
    Spell124();
  }
  lemma Words127()
    ensures SpelledAs(127, "IF") && SpelledAs(128, "ORDER") && SpelledAs(129, "RESTRICT") &&
      SpelledAs(130, "OTHERS") && SpelledAs(131, "OVER") && SpelledAs(132, "RETURNING")
  {
    hide KwText, KwOffset, KwLen, Agrees;
    Letters125();
    Letters128();
    Letters130();
    Letters132();
    Spell127();
    Spell130();
  }
  lemma Words133()
    ensures SpelledAs(133, "RIGHT") && SpelledAs(134, "ROLLBACK") && SpelledAs(135, "ROWS") &&
      SpelledAs(136, "ROW") && SpelledAs(137, "UNBOUNDED") && SpelledAs(138, "UNION")
  {
    hide KwText, KwOffset, KwLen, Agrees;
    Letters133();
    Letters135();
    Letters137();
    Letters138();
    Spell133();
    Spell136();
  }
  lemma Words139()
    ensures SpelledAs(139, "USING") && SpelledAs(140, "VACUUM") && SpelledAs(141, "VIEW") &&
      SpelledAs(142, "WINDOW") && SpelledAs(143, "DO") && SpelledAs(144, "BY")
  {
    hide KwText, KwOffset, KwLen, Agrees;
    Letters138();
    Letters140();
    Letters142();
    Spell139();
    Spell142();
  }
  lemma Words145()
    ensures SpelledAs(145, "INITIALLY") && SpelledAs(146, "ALL") && SpelledAs(147, "PRIMARY")
  {
    hide KwText, KwOffset, KwLen, Agrees;
    Letters145();
    Letters147();
    Spell145();
  }

  // The keywords by number.
  lemma AllWords()
    ensures SpelledAs(1, "REINDEX") && SpelledAs(2, "INDEXED") && SpelledAs(3, "INDEX") && SpelledAs(4, "DESC") &&
      SpelledAs(5, "ESCAPE") && SpelledAs(6, "EACH") && SpelledAs(7, "CHECK") && SpelledAs(8, "KEY") &&
      SpelledAs(9, "BEFORE") && SpelledAs(10, "FOREIGN") && SpelledAs(11, "FOR") && SpelledAs(12, "IGNORE") &&
      SpelledAs(13, "REGEXP") && SpelledAs(14, "EXPLAIN") && SpelledAs(15, "INSTEAD") && SpelledAs(16, "ADD") &&
      SpelledAs(17, "DATABASE") && SpelledAs(18, "AS") && SpelledAs(19, "SELECT") && SpelledAs(20, "TABLE") &&
      SpelledAs(21, "LEFT") && SpelledAs(22, "THEN") && SpelledAs(23, "END") && SpelledAs(24, "DEFERRABLE") &&
      SpelledAs(25, "ELSE") && SpelledAs(26, "EXCLUDE") && SpelledAs(27, "DELETE") && SpelledAs(28, "TEMPORARY") &&
      SpelledAs(29, "TEMP") && SpelledAs(30, "OR") && SpelledAs(31, "ISNULL") && SpelledAs(32, "NULLS") &&
      SpelledAs(33, "SAVEPOINT") && SpelledAs(34, "INTERSECT") && SpelledAs(35, "TIES") &&
      SpelledAs(36, "NOTNULL") && SpelledAs(37, "NOT") && SpelledAs(38, "NO") && SpelledAs(39, "NULL") &&
      SpelledAs(40, "LIKE") && SpelledAs(41, "EXCEPT") && SpelledAs(42, "TRANSACTION") && SpelledAs(43, "ACTION") &&
      SpelledAs(44, "ON") && SpelledAs(45, "NATURAL") && SpelledAs(46, "ALTER") && SpelledAs(47, "RAISE") &&
      SpelledAs(48, "EXCLUSIVE") && SpelledAs(49, "EXISTS") && SpelledAs(50, "CONSTRAINT") &&
      SpelledAs(51, "INTO") && SpelledAs(52, "OFFSET") && SpelledAs(53, "OF") && SpelledAs(54, "SET") &&
      SpelledAs(55, "TRIGGER") && SpelledAs(56, "RANGE") && SpelledAs(57, "GENERATED") && SpelledAs(58, "DETACH") &&
      SpelledAs(59, "HAVING") && SpelledAs(60, "GLOB") && SpelledAs(61, "BEGIN") && SpelledAs(62, "INNER") &&
      SpelledAs(63, "REFERENCES") && SpelledAs(64, "UNIQUE") && SpelledAs(65, "QUERY") &&
      SpelledAs(66, "WITHOUT") && SpelledAs(67, "WITH") && SpelledAs(68, "OUTER") && SpelledAs(69, "RELEASE") &&
      SpelledAs(70, "ATTACH") && SpelledAs(71, "BETWEEN") && SpelledAs(72, "NOTHING") && SpelledAs(73, "GROUPS") &&
      SpelledAs(74, "GROUP") && SpelledAs(75, "CASCADE") && SpelledAs(76, "ASC") && SpelledAs(77, "DEFAULT") &&
      SpelledAs(78, "CASE") && SpelledAs(79, "COLLATE") && SpelledAs(80, "CREATE") &&
      SpelledAs(81, "CURRENT_DATE") && SpelledAs(82, "IMMEDIATE") && SpelledAs(83, "JOIN") &&
      SpelledAs(84, "INSERT") && SpelledAs(85, "MATCH") && SpelledAs(86, "PLAN") && SpelledAs(87, "ANALYZE") &&
      SpelledAs(88, "PRAGMA") && SpelledAs(89, "MATERIALIZED") && SpelledAs(90, "DEFERRED") &&
      SpelledAs(91, "DISTINCT") && SpelledAs(92, "IS") && SpelledAs(93, "UPDATE") && SpelledAs(94, "VALUES") &&
      SpelledAs(95, "VIRTUAL") && SpelledAs(96, "ALWAYS") && SpelledAs(97, "WHEN") && SpelledAs(98, "WHERE") &&
      SpelledAs(99, "RECURSIVE") && SpelledAs(100, "ABORT") && SpelledAs(101, "AFTER") &&
      SpelledAs(102, "RENAME") && SpelledAs(103, "AND") && SpelledAs(104, "DROP") && SpelledAs(105, "PARTITION") &&
      SpelledAs(106, "AUTOINCREMENT") && SpelledAs(107, "TO") && SpelledAs(108, "IN") && SpelledAs(109, "CAST") &&
      SpelledAs(110, "COLUMN") && SpelledAs(111, "COMMIT") && SpelledAs(112, "CONFLICT") &&
      SpelledAs(113, "CROSS") && SpelledAs(114, "CURRENT_TIMESTAMP") && SpelledAs(115, "CURRENT_TIME") &&
      SpelledAs(116, "CURRENT") && SpelledAs(117, "PRECEDING") && SpelledAs(118, "FAIL") &&
      SpelledAs(119, "LAST") && SpelledAs(120, "FILTER") && SpelledAs(121, "REPLACE") && SpelledAs(122, "FIRST") &&
      SpelledAs(123, "FOLLOWING") && SpelledAs(124, "FROM") && SpelledAs(125, "FULL") && SpelledAs(126, "LIMIT") &&
      SpelledAs(127, "IF") && SpelledAs(128, "ORDER") && SpelledAs(129, "RESTRICT") && SpelledAs(130, "OTHERS") &&
      SpelledAs(131, "OVER") && SpelledAs(132, "RETURNING") && SpelledAs(133, "RIGHT") &&
      SpelledAs(134, "ROLLBACK") && SpelledAs(135, "ROWS") && SpelledAs(136, "ROW") &&
      SpelledAs(137, "UNBOUNDED") && SpelledAs(138, "UNION") && SpelledAs(139, "USING") &&
      SpelledAs(140, "VACUUM") && SpelledAs(141, "VIEW") && SpelledAs(142, "WINDOW") && SpelledAs(143, "DO") &&
      SpelledAs(144, "BY") && SpelledAs(145, "INITIALLY") && SpelledAs(146, "ALL") && SpelledAs(147, "PRIMARY")
  {
    hide SpelledAs;
    Words1();
    Words7();
    Words13();
    Words19();
    Words25();
    Words31();
    Words37();
    Words43();
    Words49();
    Words55();
    Words61();
    Words67();
    Words73();
    Words79();
    Words85();
    Words91();
    Words97();
    Words103();
    Words109();
    Words115();
    Words121();
    Words127();
    Words133();
    Words139();
    Words145();
  }
}
