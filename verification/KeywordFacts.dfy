/** The keyword tables read entry by entry: where each keyword is spelled, its hash
    slot, the way to it from the head of the slot's chain, and the letter that tells
    two keywords of one chain apart. */
module KeywordFacts {
  import opened KeywordTables

  function Lower(c: bv8): bv8 { if 65 <= c <= 90 then c + 32 else c }

  predicate Upper(c: bv8) { 65 <= c <= 90 }

  // The slot of a token, from its lower-case ends and its length.
  function Hash(first: bv8, last: bv8, n: bv64): int {
    ((((first as bv64) * 4) ^ ((last as bv64) * 3) ^ n) as int) % 127
  }

  function Bits(n: int): bv64
    requires 0 <= n < 0x8000_0000_0000_0000
  {
    n as bv64
  }

  // Keyword k has n letters from offset o on, the first a and the last b.
  predicate Spelled(k: int, o: int, n: int, a: bv8, b: bv8) {
    && KwOffset(k) == o && KwLen(k) == n && KwText(o) == a && KwText(o + n - 1) == b
    && 2 <= n <= 17 && 0 <= o && o + n <= TEXT_LENGTH
  }

  // A token of n letters with these ends has slot h.
  predicate Slotted(a: bv8, b: bv8, n: bv64, h: int) { Upper(a) && Upper(b) && Hash(a + 32, b + 32, n) == h }

  predicate Path0(h: int, k: int) { KwHash(h) == k }
  predicate Path1(h: int, p: int, k: int) { KwHash(h) == p && KwNext(p) == k }
  predicate Path2(h: int, p: int, q: int, k: int) { KwHash(h) == p && KwNext(p) == q && KwNext(q) == k }
  predicate Path3(h: int, p: int, q: int, r: int, k: int) {
    KwHash(h) == p && KwNext(p) == q && KwNext(q) == r && KwNext(r) == k
  }

  // Keyword k is in the chain of slot h.
  predicate OnPath(h: int, k: int) {
    var p := KwHash(h);
    k == p || k == KwNext(p) || k == KwNext(KwNext(p)) || k == KwNext(KwNext(KwNext(p)))
  }

  function First(k: int): bv8 { KwText(KwOffset(k)) }

  function Final(k: int): bv8 { KwText(KwOffset(k) + KwLen(k) - 1) }

  // Keyword k is in the chain of the slot its own letters hash to.
  predicate Placed(k: int) {
    && 2 <= KwLen(k) <= 17 && 0 <= KwOffset(k) && KwOffset(k) + KwLen(k) <= TEXT_LENGTH
    && Upper(First(k)) && Upper(Final(k))
    && OnPath(Hash(First(k) + 32, Final(k) + 32, Bits(KwLen(k))), k)
  }

  lemma LengthBits()
    ensures Bits(2) == 2 && Bits(3) == 3 && Bits(4) == 4 && Bits(5) == 5 && Bits(6) == 6 && Bits(7) == 7
    ensures Bits(8) == 8 && Bits(9) == 9 && Bits(10) == 10 && Bits(11) == 11 && Bits(12) == 12
    ensures Bits(13) == 13 && Bits(14) == 14 && Bits(15) == 15 && Bits(16) == 16 && Bits(17) == 17
  {}

  lemma Spell1() ensures Spelled(1, 0, 7, 82, 88) && Spelled(2, 2, 7, 73, 68) && Spelled(3, 2, 5, 73, 88) {}
  lemma Spell4() ensures Spelled(4, 8, 4, 68, 67) && Spelled(5, 9, 6, 69, 69) && Spelled(6, 14, 4, 69, 72) {}
  lemma Spell7() ensures Spelled(7, 16, 5, 67, 75) && Spelled(8, 20, 3, 75, 89) && Spelled(9, 23, 6, 66, 69) {}
  lemma Spell10() ensures Spelled(10, 25, 7, 70, 78) && Spelled(11, 25, 3, 70, 82) && Spelled(12, 29, 6, 73, 69) {}
  lemma Spell13() ensures Spelled(13, 33, 6, 82, 80) && Spelled(14, 36, 7, 69, 78) && Spelled(15, 41, 7, 73, 68) {}
  lemma Spell16() ensures Spelled(16, 46, 3, 65, 68) && Spelled(17, 48, 8, 68, 69) && Spelled(18, 53, 2, 65, 83) {}
  lemma Spell19() ensures Spelled(19, 54, 6, 83, 84) && Spelled(20, 59, 5, 84, 69) && Spelled(21, 62, 4, 76, 84) {}
  lemma Spell22() ensures Spelled(22, 65, 4, 84, 78) && Spelled(23, 67, 3, 69, 68) && Spelled(24, 69, 10, 68, 69) {}
  lemma Spell25() ensures Spelled(25, 78, 4, 69, 69) && Spelled(26, 81, 7, 69, 69) && Spelled(27, 86, 6, 68, 69) {}
  lemma Spell28() ensures Spelled(28, 90, 9, 84, 89) && Spelled(29, 90, 4, 84, 80) && Spelled(30, 94, 2, 79, 82) {}
  lemma Spell31() ensures Spelled(31, 99, 6, 73, 76) && Spelled(32, 101, 5, 78, 83) && Spelled(33, 105, 9, 83, 84) {}
  lemma Spell34() ensures Spelled(34, 111, 9, 73, 84) && Spelled(35, 119, 4, 84, 83) && Spelled(36, 123, 7, 78, 76) {}
  lemma Spell37() ensures Spelled(37, 123, 3, 78, 84) && Spelled(38, 123, 2, 78, 79) && Spelled(39, 126, 4, 78, 76) {}
  lemma Spell40()
    ensures Spelled(40, 129, 4, 76, 69) && Spelled(41, 132, 6, 69, 84) && Spelled(42, 137, 11, 84, 78)
  {}
  lemma Spell43() ensures Spelled(43, 142, 6, 65, 78) && Spelled(44, 146, 2, 79, 78) && Spelled(45, 147, 7, 78, 76) {}
  lemma Spell46() ensures Spelled(46, 152, 5, 65, 82) && Spelled(47, 156, 5, 82, 69) && Spelled(48, 160, 9, 69, 69) {}
  lemma Spell49()
    ensures Spelled(49, 168, 6, 69, 83) && Spelled(50, 174, 10, 67, 84) && Spelled(51, 181, 4, 73, 79)
  {}
  lemma Spell52() ensures Spelled(52, 184, 6, 79, 84) && Spelled(53, 184, 2, 79, 70) && Spelled(54, 187, 3, 83, 84) {}
  lemma Spell55() ensures Spelled(55, 189, 7, 84, 82) && Spelled(56, 195, 5, 82, 69) && Spelled(57, 198, 9, 71, 68) {}
  lemma Spell58() ensures Spelled(58, 206, 6, 68, 72) && Spelled(59, 211, 6, 72, 71) && Spelled(60, 216, 4, 71, 66) {}
  lemma Spell61()
    ensures Spelled(61, 219, 5, 66, 78) && Spelled(62, 222, 5, 73, 82) && Spelled(63, 226, 10, 82, 83)
  {}
  lemma Spell64() ensures Spelled(64, 236, 6, 85, 69) && Spelled(65, 239, 5, 81, 89) && Spelled(66, 244, 7, 87, 84) {}
  lemma Spell67() ensures Spelled(67, 244, 4, 87, 72) && Spelled(68, 248, 5, 79, 82) && Spelled(69, 252, 7, 82, 69) {}
  lemma Spell70() ensures Spelled(70, 259, 6, 65, 72) && Spelled(71, 265, 7, 66, 78) && Spelled(72, 271, 7, 78, 71) {}
  lemma Spell73() ensures Spelled(73, 277, 6, 71, 83) && Spelled(74, 277, 5, 71, 80) && Spelled(75, 283, 7, 67, 69) {}
  lemma Spell76() ensures Spelled(76, 284, 3, 65, 67) && Spelled(77, 288, 7, 68, 84) && Spelled(78, 295, 4, 67, 69) {}
  lemma Spell79()
    ensures Spelled(79, 299, 7, 67, 69) && Spelled(80, 306, 6, 67, 69) && Spelled(81, 312, 12, 67, 69)
  {}
  lemma Spell82() ensures Spelled(82, 324, 9, 73, 69) && Spelled(83, 333, 4, 74, 78) && Spelled(84, 335, 6, 73, 84) {}
  lemma Spell85() ensures Spelled(85, 341, 5, 77, 72) && Spelled(86, 346, 4, 80, 78) && Spelled(87, 348, 7, 65, 69) {}
  lemma Spell88()
    ensures Spelled(88, 355, 6, 80, 65) && Spelled(89, 359, 12, 77, 68) && Spelled(90, 370, 8, 68, 68)
  {}
  lemma Spell91() ensures Spelled(91, 377, 8, 68, 84) && Spelled(92, 378, 2, 73, 83) && Spelled(93, 385, 6, 85, 69) {}
  lemma Spell94() ensures Spelled(94, 391, 6, 86, 83) && Spelled(95, 397, 7, 86, 76) && Spelled(96, 402, 6, 65, 83) {}
  lemma Spell97() ensures Spelled(97, 408, 4, 87, 78) && Spelled(98, 412, 5, 87, 69) && Spelled(99, 415, 9, 82, 69) {}
  lemma Spell100()
    ensures Spelled(100, 424, 5, 65, 84) && Spelled(101, 429, 5, 65, 82) && Spelled(102, 433, 6, 82, 69)
  {}
  lemma Spell103()
    ensures Spelled(103, 439, 3, 65, 68) && Spelled(104, 441, 4, 68, 80) && Spelled(105, 444, 9, 80, 78)
  {}
  lemma Spell106()
    ensures Spelled(106, 453, 13, 65, 84) && Spelled(107, 455, 2, 84, 79) && Spelled(108, 457, 2, 73, 78)
  {}
  lemma Spell109()
    ensures Spelled(109, 466, 4, 67, 84) && Spelled(110, 470, 6, 67, 78) && Spelled(111, 476, 6, 67, 84)
  {}
  lemma Spell112()
    ensures Spelled(112, 482, 8, 67, 84) && Spelled(113, 490, 5, 67, 83) && Spelled(114, 495, 17, 67, 80)
  {}
  lemma Spell115()
    ensures Spelled(115, 495, 12, 67, 69) && Spelled(116, 495, 7, 67, 84) && Spelled(117, 511, 9, 80, 71)
  {}
  lemma Spell118()
    ensures Spelled(118, 520, 4, 70, 76) && Spelled(119, 523, 4, 76, 84) && Spelled(120, 527, 6, 70, 82)
  {}
  lemma Spell121()
    ensures Spelled(121, 532, 7, 82, 69) && Spelled(122, 539, 5, 70, 84) && Spelled(123, 544, 9, 70, 71)
  {}
  lemma Spell124()
    ensures Spelled(124, 553, 4, 70, 77) && Spelled(125, 557, 4, 70, 76) && Spelled(126, 560, 5, 76, 84)
  {}
  lemma Spell127()
    ensures Spelled(127, 565, 2, 73, 70) && Spelled(128, 567, 5, 79, 82) && Spelled(129, 571, 8, 82, 84)
  {}
  lemma Spell130()
    ensures Spelled(130, 579, 6, 79, 83) && Spelled(131, 585, 4, 79, 82) && Spelled(132, 588, 9, 82, 71)
  {}
  lemma Spell133()
    ensures Spelled(133, 597, 5, 82, 84) && Spelled(134, 602, 8, 82, 75) && Spelled(135, 610, 4, 82, 83)
  {}
  lemma Spell136()
    ensures Spelled(136, 610, 3, 82, 87) && Spelled(137, 614, 9, 85, 68) && Spelled(138, 623, 5, 85, 78)
  {}
  lemma Spell139()
    ensures Spelled(139, 628, 5, 85, 71) && Spelled(140, 633, 6, 86, 77) && Spelled(141, 639, 4, 86, 87)
  {}
  lemma Spell142()
    ensures Spelled(142, 642, 6, 87, 87) && Spelled(143, 645, 2, 68, 79) && Spelled(144, 648, 2, 66, 89)
  {}
  lemma Spell145()
    ensures Spelled(145, 650, 9, 73, 89) && Spelled(146, 655, 3, 65, 76) && Spelled(147, 659, 7, 80, 89)
  {}
  lemma Slots1()
    ensures Slotted(82, 88, 7, 40) && Slotted(73, 68, 7, 16) && Slotted(73, 88, 5, 74) && Slotted(68, 67, 4, 62) &&
      Slotted(69, 69, 6, 62) && Slotted(69, 72, 4, 41) && Slotted(67, 75, 5, 73)
  {}
  lemma Slots8()
    ensures Slotted(75, 89, 3, 69) && Slotted(66, 69, 6, 34) && Slotted(70, 78, 7, 86) && Slotted(70, 82, 3, 78) &&
      Slotted(73, 69, 6, 14) && Slotted(82, 80, 6, 31) && Slotted(69, 78, 7, 90)
  {}
  lemma Slots15()
    ensures Slotted(73, 68, 7, 16) && Slotted(65, 68, 3, 44) && Slotted(68, 69, 8, 56) && Slotted(65, 83, 2, 96) &&
      Slotted(83, 84, 6, 23) && Slotted(84, 69, 5, 123) && Slotted(76, 84, 4, 105)
  {}
  lemma Slots22()
    ensures Slotted(84, 78, 4, 31) && Slotted(69, 68, 3, 60) && Slotted(68, 69, 10, 54) && Slotted(69, 69, 4, 64) &&
      Slotted(69, 69, 7, 61) && Slotted(68, 69, 6, 58) && Slotted(84, 89, 9, 51)
  {}
  lemma Slots29()
    ensures Slotted(84, 80, 4, 5) && Slotted(79, 82, 2, 105) && Slotted(73, 76, 6, 103) &&
      Slotted(78, 83, 5, 101) && Slotted(83, 84, 9, 26) && Slotted(73, 84, 9, 114) && Slotted(84, 83, 4, 14)
  {}
  lemma Slots36()
    ensures Slotted(78, 76, 7, 124) && Slotted(78, 84, 3, 104) && Slotted(78, 79, 2, 120) &&
      Slotted(78, 76, 4, 121) && Slotted(76, 69, 4, 28) && Slotted(69, 84, 6, 79) && Slotted(84, 78, 11, 18)
  {}
  lemma Slots43()
    ensures Slotted(65, 78, 6, 73) && Slotted(79, 78, 2, 117) && Slotted(78, 76, 7, 124) &&
      Slotted(65, 82, 5, 88) && Slotted(82, 69, 5, 99) && Slotted(69, 69, 9, 51) && Slotted(69, 83, 6, 76)
  {}
  lemma Slots50()
    ensures Slotted(67, 84, 10, 91) && Slotted(73, 79, 4, 110) && Slotted(79, 84, 6, 103) &&
      Slotted(79, 70, 2, 13) && Slotted(83, 84, 3, 20) && Slotted(84, 82, 7, 2) && Slotted(82, 69, 5, 99)
  {}
  lemma Slots57()
    ensures Slotted(71, 68, 9, 58) && Slotted(68, 72, 6, 47) && Slotted(72, 71, 6, 20) && Slotted(71, 66, 4, 63) &&
      Slotted(66, 78, 5, 72) && Slotted(73, 82, 5, 120) && Slotted(82, 83, 10, 28)
  {}
  lemma Slots64()
    ensures Slotted(85, 69, 6, 126) && Slotted(81, 89, 5, 43) && Slotted(87, 84, 7, 8) && Slotted(87, 72, 4, 97) &&
      Slotted(79, 82, 5, 112) && Slotted(82, 69, 7, 97) && Slotted(65, 72, 6, 59)
  {}
  lemma Slots71()
    ensures Slotted(66, 78, 7, 70) && Slotted(78, 71, 7, 11) && Slotted(71, 83, 6, 68) && Slotted(71, 80, 5, 74) &&
      Slotted(67, 69, 7, 37) && Slotted(65, 67, 3, 47) && Slotted(68, 84, 7, 76)
  {}
  lemma Slots78()
    ensures Slotted(67, 69, 4, 40) && Slotted(67, 69, 7, 37) && Slotted(67, 69, 6, 38) && Slotted(67, 69, 12, 48) &&
      Slotted(73, 69, 9, 3) && Slotted(74, 78, 4, 103) && Slotted(73, 84, 6, 0)
  {}
  lemma Slots85()
    ensures Slotted(77, 72, 5, 10) && Slotted(80, 78, 4, 15) && Slotted(65, 69, 7, 45) && Slotted(80, 65, 6, 102) &&
      Slotted(77, 68, 12, 21) && Slotted(68, 68, 8, 53) && Slotted(68, 84, 8, 69)
  {}
  lemma Slots92()
    ensures Slotted(73, 83, 2, 1) && Slotted(85, 69, 6, 126) && Slotted(86, 83, 6, 8) && Slotted(86, 76, 7, 28) &&
      Slotted(65, 83, 6, 92) && Slotted(87, 78, 4, 19) && Slotted(87, 69, 5, 119)
  {}
  lemma Slots99()
    ensures Slotted(82, 69, 9, 111) && Slotted(65, 84, 5, 94) && Slotted(65, 82, 5, 88) && Slotted(82, 69, 6, 98) &&
      Slotted(65, 68, 3, 44) && Slotted(68, 80, 4, 69) && Slotted(80, 78, 9, 4)
  {}
  lemma Slots106()
    ensures Slotted(65, 84, 13, 86) && Slotted(84, 79, 2, 32) && Slotted(73, 78, 2, 109) &&
      Slotted(67, 84, 4, 85) && Slotted(67, 78, 6, 65) && Slotted(67, 84, 6, 87) && Slotted(67, 84, 8, 89)
  {}
  lemma Slots113()
    ensures Slotted(67, 83, 5, 81) && Slotted(67, 80, 17, 78) && Slotted(67, 69, 12, 48) &&
      Slotted(67, 84, 7, 88) && Slotted(80, 71, 9, 125) && Slotted(70, 76, 4, 89) && Slotted(76, 84, 4, 105)
  {}
  lemma Slots120()
    ensures Slotted(70, 82, 6, 73) && Slotted(82, 69, 7, 97) && Slotted(70, 84, 5, 66) && Slotted(70, 71, 9, 37) &&
      Slotted(70, 77, 4, 92) && Slotted(70, 76, 4, 89) && Slotted(76, 84, 5, 106)
  {}
  lemma Slots127()
    ensures Slotted(73, 70, 2, 21) && Slotted(79, 82, 5, 112) && Slotted(82, 84, 8, 29) &&
      Slotted(79, 83, 6, 100) && Slotted(79, 82, 4, 111) && Slotted(82, 71, 9, 117) && Slotted(82, 84, 5, 18)
  {}
  lemma Slots134()
    ensures Slotted(82, 75, 8, 2) && Slotted(82, 83, 4, 22) && Slotted(82, 87, 3, 47) && Slotted(85, 68, 9, 114) &&
      Slotted(85, 78, 5, 28) && Slotted(85, 71, 5, 101) && Slotted(86, 77, 6, 26)
  {}
  lemma Slots141()
    ensures Slotted(86, 87, 4, 58) && Slotted(87, 87, 6, 64) && Slotted(68, 79, 2, 96) && Slotted(66, 89, 2, 98) &&
      Slotted(73, 89, 9, 71) && Slotted(65, 76, 3, 68) && Slotted(80, 89, 7, 45)
  {}
  lemma Paths1()
    ensures Path1(40, 78, 1) && Path1(16, 15, 2) && Path1(74, 74, 3) && Path1(62, 5, 4) && Path0(62, 5) &&
      Path0(41, 6) && Path1(73, 120, 7)
  {}
  lemma Paths8()
    ensures Path2(69, 91, 104, 8) && Path0(34, 9) && Path0(86, 10) && Path0(78, 11) && Path1(14, 35, 12) &&
      Path1(31, 22, 13) && Path0(90, 14)
  {}
  lemma Paths15()
    ensures Path0(16, 15) && Path1(44, 103, 16) && Path0(56, 17) && Path0(96, 18) && Path0(23, 19) &&
      Path0(123, 20) && Path2(105, 30, 119, 21)
  {}
  lemma Paths22()
    ensures Path0(31, 22) && Path0(60, 23) && Path0(54, 24) && Path1(64, 142, 25) && Path0(61, 26) &&
      Path0(58, 27) && Path1(51, 48, 28)
  {}
  lemma Paths29()
    ensures Path0(5, 29) && Path0(105, 30) && Path1(103, 83, 31) && Path1(101, 139, 32) && Path1(26, 140, 33) &&
      Path0(114, 34) && Path0(14, 35)
  {}
  lemma Paths36()
    ensures Path1(124, 45, 36) && Path0(104, 37) && Path0(120, 38) && Path0(121, 39) && Path0(28, 40) &&
      Path0(79, 41) && Path0(18, 42)
  {}
  lemma Paths43()
    ensures Path2(73, 120, 7, 43) && Path1(117, 132, 44) && Path0(124, 45) && Path2(88, 116, 101, 46) &&
      Path1(99, 56, 47) && Path0(51, 48) && Path0(76, 49)
  {}
  lemma Paths50()
    ensures Path0(91, 50) && Path0(110, 51) && Path2(103, 83, 31, 52) && Path0(13, 53) && Path0(20, 54) &&
      Path1(2, 134, 55) && Path0(99, 56)
  {}
  lemma Paths57()
    ensures Path2(58, 27, 141, 57) && Path2(47, 136, 76, 58) && Path1(20, 54, 59) && Path0(63, 60) &&
      Path0(72, 61) && Path1(120, 38, 62) && Path3(28, 40, 138, 95, 63)
  {}
  lemma Paths64()
    ensures Path1(126, 93, 64) && Path0(43, 65) && Path1(8, 94, 66) && Path1(97, 121, 67) && Path1(112, 128, 68) &&
      Path2(97, 121, 67, 69) && Path0(59, 70)
  {}
  lemma Paths71()
    ensures Path0(70, 71) && Path0(11, 72) && Path0(68, 73) && Path0(74, 74) && Path2(37, 123, 79, 75) &&
      Path1(47, 136, 76) && Path1(76, 49, 77)
  {}
  lemma Paths78()
    ensures Path0(40, 78) && Path1(37, 123, 79) && Path0(38, 80) && Path1(48, 115, 81) && Path0(3, 82) &&
      Path0(103, 83) && Path0(0, 84)
  {}
  lemma Paths85()
    ensures Path0(10, 85) && Path0(15, 86) && Path1(45, 147, 87) && Path0(102, 88) && Path0(21, 89) &&
      Path0(53, 90) && Path0(69, 91)
  {}
  lemma Paths92()
    ensures Path0(1, 92) && Path0(126, 93) && Path0(8, 94) && Path2(28, 40, 138, 95) && Path1(92, 124, 96) &&
      Path0(19, 97) && Path0(119, 98)
  {}
  lemma Paths99()
    ensures Path1(111, 131, 99) && Path0(94, 100) && Path1(88, 116, 101) && Path1(98, 144, 102) && Path0(44, 103) &&
      Path1(69, 91, 104) && Path0(4, 105)
  {}
  lemma Paths106()
    ensures Path1(86, 10, 106) && Path0(32, 107) && Path0(109, 108) && Path0(85, 109) && Path0(65, 110) &&
      Path0(87, 111) && Path2(89, 125, 118, 112)
  {}
  lemma Paths113()
    ensures Path0(81, 113) && Path1(78, 11, 114) && Path0(48, 115) && Path0(88, 116) && Path0(125, 117) &&
      Path1(89, 125, 118) && Path1(105, 30, 119)
  {}
  lemma Paths120()
    ensures Path0(73, 120) && Path0(97, 121) && Path0(66, 122) && Path0(37, 123) && Path0(92, 124) &&
      Path0(89, 125) && Path0(106, 126)
  {}
  lemma Paths127()
    ensures Path1(21, 89, 127) && Path0(112, 128) && Path0(29, 129) && Path0(100, 130) && Path0(111, 131) &&
      Path0(117, 132) && Path1(18, 42, 133)
  {}
  lemma Paths134()
    ensures Path0(2, 134) && Path0(22, 135) && Path0(47, 136) && Path1(114, 34, 137) && Path1(28, 40, 138) &&
      Path0(101, 139) && Path0(26, 140)
  {}
  lemma Paths141()
    ensures Path1(58, 27, 141) && Path0(64, 142) && Path1(96, 18, 143) && Path0(98, 144) && Path0(71, 145) &&
      Path1(68, 73, 146) && Path0(45, 147)
  {}
  lemma Placed1(k: int)
    requires 1 <= k < 22
    ensures Placed(k)
  {
    hide KwHash, KwNext, KwLen, KwOffset, KwText, Hash, Bits, Upper;
    LengthBits();
    Slots1();
    Paths1();
    Slots8();
    Paths8();
    Slots15();
    Paths15();
    if k < 4 {
      Spell1();
    } else if k < 7 {
      Spell4();
    } else if k < 10 {
      Spell7();
    } else if k < 13 {
      Spell10();
    } else if k < 16 {
      Spell13();
    } else if k < 19 {
      Spell16();
    } else {
      Spell19();
    }
  }

  lemma Placed22(k: int)
    requires 22 <= k < 43
    ensures Placed(k)
  {
    hide KwHash, KwNext, KwLen, KwOffset, KwText, Hash, Bits, Upper;
    LengthBits();
    Slots22();
    Paths22();
    Slots29();
    Paths29();
    Slots36();
    Paths36();
    if k < 25 {
      Spell22();
    } else if k < 28 {
      Spell25();
    } else if k < 31 {
      Spell28();
    } else if k < 34 {
      Spell31();
    } else if k < 37 {
      Spell34();
    } else if k < 40 {
      Spell37();
    } else {
      Spell40();
    }
  }

  lemma Placed43(k: int)
    requires 43 <= k < 64
    ensures Placed(k)
  {
    hide KwHash, KwNext, KwLen, KwOffset, KwText, Hash, Bits, Upper;
    LengthBits();
    Slots43();
    Paths43();
    Slots50();
    Paths50();
    Slots57();
    Paths57();
    if k < 46 {
      Spell43();
    } else if k < 49 {
      Spell46();
    } else if k < 52 {
      Spell49();
    } else if k < 55 {
      Spell52();
    } else if k < 58 {
      Spell55();
    } else if k < 61 {
      Spell58();
    } else {
      Spell61();
    }
  }

  lemma Placed64(k: int)
    requires 64 <= k < 85
    ensures Placed(k)
  {
    hide KwHash, KwNext, KwLen, KwOffset, KwText, Hash, Bits, Upper;
    LengthBits();
    Slots64();
    Paths64();
    Slots71();
    Paths71();
    Slots78();
    Paths78();
    if k < 67 {
      Spell64();
    } else if k < 70 {
      Spell67();
    } else if k < 73 {
      Spell70();
    } else if k < 76 {
      Spell73();
    } else if k < 79 {
      Spell76();
    } else if k < 82 {
      Spell79();
    } else {
      Spell82();
    }
  }

  lemma Placed85(k: int)
    requires 85 <= k < 106
    ensures Placed(k)
  {
    hide KwHash, KwNext, KwLen, KwOffset, KwText, Hash, Bits, Upper;
    LengthBits();
    Slots85();
    Paths85();
    Slots92();
    Paths92();
    Slots99();
    Paths99();
    if k < 88 {
      Spell85();
    } else if k < 91 {
      Spell88();
    } else if k < 94 {
      Spell91();
    } else if k < 97 {
      Spell94();
    } else if k < 100 {
      Spell97();
    } else if k < 103 {
      Spell100();
    } else {
      Spell103();
    }
  }

  lemma Placed106(k: int)
    requires 106 <= k < 127
    ensures Placed(k)
  {
    hide KwHash, KwNext, KwLen, KwOffset, KwText, Hash, Bits, Upper;
    LengthBits();
    Slots106();
    Paths106();
    Slots113();
    Paths113();
    Slots120();
    Paths120();
    if k < 109 {
      Spell106();
    } else if k < 112 {
      Spell109();
    } else if k < 115 {
      Spell112();
    } else if k < 118 {
      Spell115();
    } else if k < 121 {
      Spell118();
    } else if k < 124 {
      Spell121();
    } else {
      Spell124();
    }
  }

  lemma Placed127(k: int)
    requires 127 <= k < 148
    ensures Placed(k)
  {
    hide KwHash, KwNext, KwLen, KwOffset, KwText, Hash, Bits, Upper;
    LengthBits();
    Slots127();
    Paths127();
    Slots134();
    Paths134();
    Slots141();
    Paths141();
    if k < 130 {
      Spell127();
    } else if k < 133 {
      Spell130();
    } else if k < 136 {
      Spell133();
    } else if k < 139 {
      Spell136();
    } else if k < 142 {
      Spell139();
    } else if k < 145 {
      Spell142();
    } else {
      Spell145();
    }
  }

  // ----- No two keywords of a chain are spelled alike ------------------------------------

  // The whole chain of slot h, by its length.
  predicate Chain0(h: int) { KwHash(h) == 0 }
  predicate Chain1(h: int, p: int) { KwHash(h) == p && KwNext(p) == 0 }
  predicate Chain2(h: int, p: int, q: int) { KwHash(h) == p && KwNext(p) == q && KwNext(q) == 0 }
  predicate Chain3(h: int, p: int, q: int, r: int) {
    KwHash(h) == p && KwNext(p) == q && KwNext(q) == r && KwNext(r) == 0
  }
  predicate Chain4(h: int, p: int, q: int, r: int, s: int) {
    KwHash(h) == p && KwNext(p) == q && KwNext(q) == r && KwNext(r) == s && KwNext(s) == 0
  }

  lemma NoNext()
    ensures KwNext(0) == 0
  {}

  lemma Members0(h: int, i: int)
    requires Chain0(h) && OnPath(h, i)
    ensures i == 0
  {
    hide KwHash, KwNext;
    NoNext();
  }

  lemma Members1(h: int, p: int, i: int)
    requires Chain1(h, p) && OnPath(h, i)
    ensures i == p || i == 0
  {
    hide KwHash, KwNext;
    NoNext();
  }

  lemma Members2(h: int, p: int, q: int, i: int)
    requires Chain2(h, p, q) && OnPath(h, i)
    ensures i == p || i == q || i == 0
  {
    hide KwHash, KwNext;
    NoNext();
  }

  lemma Members3(h: int, p: int, q: int, r: int, i: int)
    requires Chain3(h, p, q, r) && OnPath(h, i)
    ensures i == p || i == q || i == r || i == 0
  {
    hide KwHash, KwNext;
    NoNext();
  }

  lemma Members4(h: int, p: int, q: int, r: int, s: int, i: int)
    requires Chain4(h, p, q, r, s) && OnPath(h, i)
    ensures i == p || i == q || i == r || i == s || i == 0
  {
    hide KwHash, KwNext;
    NoNext();
  }

  predicate SameText(i: int, j: int) {
    KwLen(i) == KwLen(j) && forall d | 0 <= d < KwLen(i) :: Letter(i, d) == Letter(j, d)
  }

  function Letter(k: int, d: int): bv8 { KwText(KwOffset(k) + d) }

  // Keywords i and j have different lengths, or letter d differs.
  predicate Apart(i: int, j: int, oi: int, oj: int, d: int) {
    || KwLen(i) != KwLen(j)
    || (KwOffset(i) == oi && KwOffset(j) == oj && 0 <= d < KwLen(i) && KwText(oi + d) != KwText(oj + d))
  }

  lemma ApartMeans(i: int, j: int, oi: int, oj: int, d: int)
    requires Apart(i, j, oi, oj, d)
    ensures !SameText(i, j)
  {
    hide KwText, KwOffset, KwLen;
    if KwLen(i) == KwLen(j) { assert Letter(i, d) != Letter(j, d); }
  }

  lemma Chains0() ensures Chain1(0, 84) && Chain1(1, 92) && Chain2(2, 134, 55) && Chain1(3, 82) {}
  lemma Chains4() ensures Chain1(4, 105) && Chain1(5, 29) && Chain0(6) && Chain0(7) {}
  lemma Apart0() ensures Apart(55, 134, 189, 602, 0) {}
  lemma Distinct0(h: int, i: int, j: int)
    requires 0 <= h < 8 && 0 < i < j && OnPath(h, i) && OnPath(h, j)
    ensures !SameText(i, j)
  {
    hide OnPath, SameText, Apart, Chain0, Chain1, Chain2, Chain3, Chain4;
    Chains0();
    Chains4();
    Apart0();
    if h == 0 { Members1(0, 84, i); Members1(0, 84, j); }
    if h == 1 { Members1(1, 92, i); Members1(1, 92, j); }
    if h == 2 { Members2(2, 134, 55, i); Members2(2, 134, 55, j); ApartMeans(55, 134, 189, 602, 0); }
    if h == 3 { Members1(3, 82, i); Members1(3, 82, j); }
    if h == 4 { Members1(4, 105, i); Members1(4, 105, j); }
    if h == 5 { Members1(5, 29, i); Members1(5, 29, j); }
    if h == 6 { Members0(6, i); Members0(6, j); }
    if h == 7 { Members0(7, i); Members0(7, j); }
  }

  lemma Chains8() ensures Chain2(8, 94, 66) && Chain0(9) && Chain1(10, 85) && Chain1(11, 72) {}
  lemma Chains12() ensures Chain0(12) && Chain1(13, 53) && Chain2(14, 35, 12) && Chain1(15, 86) {}
  lemma Apart8() ensures Apart(66, 94, 244, 391, 0) && Apart(12, 35, 29, 119, 0) {}
  lemma Distinct8(h: int, i: int, j: int)
    requires 8 <= h < 16 && 0 < i < j && OnPath(h, i) && OnPath(h, j)
    ensures !SameText(i, j)
  {
    hide OnPath, SameText, Apart, Chain0, Chain1, Chain2, Chain3, Chain4;
    Chains8();
    Chains12();
    Apart8();
    if h == 8 { Members2(8, 94, 66, i); Members2(8, 94, 66, j); ApartMeans(66, 94, 244, 391, 0); }
    if h == 9 { Members0(9, i); Members0(9, j); }
    if h == 10 { Members1(10, 85, i); Members1(10, 85, j); }
    if h == 11 { Members1(11, 72, i); Members1(11, 72, j); }
    if h == 12 { Members0(12, i); Members0(12, j); }
    if h == 13 { Members1(13, 53, i); Members1(13, 53, j); }
    if h == 14 { Members2(14, 35, 12, i); Members2(14, 35, 12, j); ApartMeans(12, 35, 29, 119, 0); }
    if h == 15 { Members1(15, 86, i); Members1(15, 86, j); }
  }

  lemma Chains16() ensures Chain2(16, 15, 2) && Chain0(17) && Chain2(18, 42, 133) && Chain1(19, 97) {}
  lemma Chains20() ensures Chain2(20, 54, 59) && Chain2(21, 89, 127) && Chain1(22, 135) && Chain1(23, 19) {}
  lemma Apart16()
    ensures Apart(2, 15, 2, 41, 2) && Apart(42, 133, 137, 597, 0) && Apart(54, 59, 187, 211, 0) &&
      Apart(89, 127, 359, 565, 0)
  {}
  lemma Distinct16(h: int, i: int, j: int)
    requires 16 <= h < 24 && 0 < i < j && OnPath(h, i) && OnPath(h, j)
    ensures !SameText(i, j)
  {
    hide OnPath, SameText, Apart, Chain0, Chain1, Chain2, Chain3, Chain4;
    Chains16();
    Chains20();
    Apart16();
    if h == 16 { Members2(16, 15, 2, i); Members2(16, 15, 2, j); ApartMeans(2, 15, 2, 41, 2); }
    if h == 17 { Members0(17, i); Members0(17, j); }
    if h == 18 { Members2(18, 42, 133, i); Members2(18, 42, 133, j); ApartMeans(42, 133, 137, 597, 0); }
    if h == 19 { Members1(19, 97, i); Members1(19, 97, j); }
    if h == 20 { Members2(20, 54, 59, i); Members2(20, 54, 59, j); ApartMeans(54, 59, 187, 211, 0); }
    if h == 21 { Members2(21, 89, 127, i); Members2(21, 89, 127, j); ApartMeans(89, 127, 359, 565, 0); }
    if h == 22 { Members1(22, 135, i); Members1(22, 135, j); }
    if h == 23 { Members1(23, 19, i); Members1(23, 19, j); }
  }

  lemma Chains24() ensures Chain0(24) && Chain0(25) && Chain2(26, 140, 33) && Chain0(27) {}
  lemma Chains28() ensures Chain4(28, 40, 138, 95, 63) && Chain1(29, 129) && Chain0(30) && Chain2(31, 22, 13) {}
  lemma Apart24()
    ensures Apart(33, 140, 105, 633, 0) && Apart(40, 63, 129, 226, 0) && Apart(40, 95, 129, 397, 0) &&
      Apart(40, 138, 129, 623, 0) && Apart(63, 95, 226, 397, 0) && Apart(63, 138, 226, 623, 0) &&
      Apart(95, 138, 397, 623, 0) && Apart(13, 22, 33, 65, 0)
  {}
  lemma Distinct24(h: int, i: int, j: int)
    requires 24 <= h < 32 && 0 < i < j && OnPath(h, i) && OnPath(h, j)
    ensures !SameText(i, j)
  {
    hide OnPath, SameText, Apart, Chain0, Chain1, Chain2, Chain3, Chain4;
    Chains24();
    Chains28();
    Apart24();
    if h == 24 { Members0(24, i); Members0(24, j); }
    if h == 25 { Members0(25, i); Members0(25, j); }
    if h == 26 { Members2(26, 140, 33, i); Members2(26, 140, 33, j); ApartMeans(33, 140, 105, 633, 0); }
    if h == 27 { Members0(27, i); Members0(27, j); }
    if h == 28 {
      Members4(28, 40, 138, 95, 63, i); Members4(28, 40, 138, 95, 63, j); ApartMeans(40, 63, 129, 226, 0);
      ApartMeans(40, 95, 129, 397, 0); ApartMeans(40, 138, 129, 623, 0); ApartMeans(63, 95, 226, 397, 0);
      ApartMeans(63, 138, 226, 623, 0); ApartMeans(95, 138, 397, 623, 0);
    }
    if h == 29 { Members1(29, 129, i); Members1(29, 129, j); }
    if h == 30 { Members0(30, i); Members0(30, j); }
    if h == 31 { Members2(31, 22, 13, i); Members2(31, 22, 13, j); ApartMeans(13, 22, 33, 65, 0); }
  }

  lemma Chains32() ensures Chain1(32, 107) && Chain0(33) && Chain1(34, 9) && Chain0(35) {}
  lemma Chains36() ensures Chain0(36) && Chain3(37, 123, 79, 75) && Chain1(38, 80) && Chain0(39) {}
  lemma Apart32() ensures Apart(75, 79, 283, 299, 1) && Apart(75, 123, 283, 544, 0) && Apart(79, 123, 299, 544, 0) {}
  lemma Distinct32(h: int, i: int, j: int)
    requires 32 <= h < 40 && 0 < i < j && OnPath(h, i) && OnPath(h, j)
    ensures !SameText(i, j)
  {
    hide OnPath, SameText, Apart, Chain0, Chain1, Chain2, Chain3, Chain4;
    Chains32();
    Chains36();
    Apart32();
    if h == 32 { Members1(32, 107, i); Members1(32, 107, j); }
    if h == 33 { Members0(33, i); Members0(33, j); }
    if h == 34 { Members1(34, 9, i); Members1(34, 9, j); }
    if h == 35 { Members0(35, i); Members0(35, j); }
    if h == 36 { Members0(36, i); Members0(36, j); }
    if h == 37 {
      Members3(37, 123, 79, 75, i); Members3(37, 123, 79, 75, j); ApartMeans(75, 79, 283, 299, 1);
      ApartMeans(75, 123, 283, 544, 0); ApartMeans(79, 123, 299, 544, 0);
    }
    if h == 38 { Members1(38, 80, i); Members1(38, 80, j); }
    if h == 39 { Members0(39, i); Members0(39, j); }
  }

  lemma Chains40() ensures Chain2(40, 78, 1) && Chain1(41, 6) && Chain0(42) && Chain1(43, 65) {}
  lemma Chains44() ensures Chain2(44, 103, 16) && Chain2(45, 147, 87) && Chain0(46) && Chain3(47, 136, 76, 58) {}
  lemma Apart40()
    ensures Apart(1, 78, 0, 295, 0) && Apart(16, 103, 46, 439, 1) && Apart(87, 147, 348, 659, 0) &&
      Apart(58, 76, 206, 284, 0) && Apart(58, 136, 206, 610, 0) && Apart(76, 136, 284, 610, 0)
  {}
  lemma Distinct40(h: int, i: int, j: int)
    requires 40 <= h < 48 && 0 < i < j && OnPath(h, i) && OnPath(h, j)
    ensures !SameText(i, j)
  {
    hide OnPath, SameText, Apart, Chain0, Chain1, Chain2, Chain3, Chain4;
    Chains40();
    Chains44();
    Apart40();
    if h == 40 { Members2(40, 78, 1, i); Members2(40, 78, 1, j); ApartMeans(1, 78, 0, 295, 0); }
    if h == 41 { Members1(41, 6, i); Members1(41, 6, j); }
    if h == 42 { Members0(42, i); Members0(42, j); }
    if h == 43 { Members1(43, 65, i); Members1(43, 65, j); }
    if h == 44 { Members2(44, 103, 16, i); Members2(44, 103, 16, j); ApartMeans(16, 103, 46, 439, 1); }
    if h == 45 { Members2(45, 147, 87, i); Members2(45, 147, 87, j); ApartMeans(87, 147, 348, 659, 0); }
    if h == 46 { Members0(46, i); Members0(46, j); }
    if h == 47 {
      Members3(47, 136, 76, 58, i); Members3(47, 136, 76, 58, j); ApartMeans(58, 76, 206, 284, 0);
      ApartMeans(58, 136, 206, 610, 0); ApartMeans(76, 136, 284, 610, 0);
    }
  }

  lemma Chains48() ensures Chain2(48, 115, 81) && Chain0(49) && Chain0(50) && Chain2(51, 48, 28) {}
  lemma Chains52() ensures Chain0(52) && Chain1(53, 90) && Chain1(54, 24) && Chain0(55) {}
  lemma Apart48() ensures Apart(81, 115, 312, 495, 8) && Apart(28, 48, 90, 160, 0) {}
  lemma Distinct48(h: int, i: int, j: int)
    requires 48 <= h < 56 && 0 < i < j && OnPath(h, i) && OnPath(h, j)
    ensures !SameText(i, j)
  {
    hide OnPath, SameText, Apart, Chain0, Chain1, Chain2, Chain3, Chain4;
    Chains48();
    Chains52();
    Apart48();
    if h == 48 { Members2(48, 115, 81, i); Members2(48, 115, 81, j); ApartMeans(81, 115, 312, 495, 8); }
    if h == 49 { Members0(49, i); Members0(49, j); }
    if h == 50 { Members0(50, i); Members0(50, j); }
    if h == 51 { Members2(51, 48, 28, i); Members2(51, 48, 28, j); ApartMeans(28, 48, 90, 160, 0); }
    if h == 52 { Members0(52, i); Members0(52, j); }
    if h == 53 { Members1(53, 90, i); Members1(53, 90, j); }
    if h == 54 { Members1(54, 24, i); Members1(54, 24, j); }
    if h == 55 { Members0(55, i); Members0(55, j); }
  }

  lemma Chains56() ensures Chain1(56, 17) && Chain0(57) && Chain3(58, 27, 141, 57) && Chain1(59, 70) {}
  lemma Chains60() ensures Chain1(60, 23) && Chain1(61, 26) && Chain2(62, 5, 4) && Chain1(63, 60) {}
  lemma Apart56()
    ensures Apart(27, 57, 86, 198, 0) && Apart(27, 141, 86, 639, 0) && Apart(57, 141, 198, 639, 0) &&
      Apart(4, 5, 8, 9, 0)
  {}
  lemma Distinct56(h: int, i: int, j: int)
    requires 56 <= h < 64 && 0 < i < j && OnPath(h, i) && OnPath(h, j)
    ensures !SameText(i, j)
  {
    hide OnPath, SameText, Apart, Chain0, Chain1, Chain2, Chain3, Chain4;
    Chains56();
    Chains60();
    Apart56();
    if h == 56 { Members1(56, 17, i); Members1(56, 17, j); }
    if h == 57 { Members0(57, i); Members0(57, j); }
    if h == 58 {
      Members3(58, 27, 141, 57, i); Members3(58, 27, 141, 57, j); ApartMeans(27, 57, 86, 198, 0);
      ApartMeans(27, 141, 86, 639, 0); ApartMeans(57, 141, 198, 639, 0);
    }
    if h == 59 { Members1(59, 70, i); Members1(59, 70, j); }
    if h == 60 { Members1(60, 23, i); Members1(60, 23, j); }
    if h == 61 { Members1(61, 26, i); Members1(61, 26, j); }
    if h == 62 { Members2(62, 5, 4, i); Members2(62, 5, 4, j); ApartMeans(4, 5, 8, 9, 0); }
    if h == 63 { Members1(63, 60, i); Members1(63, 60, j); }
  }

  lemma Chains64() ensures Chain2(64, 142, 25) && Chain1(65, 110) && Chain1(66, 122) && Chain0(67) {}
  lemma Chains68() ensures Chain2(68, 73, 146) && Chain3(69, 91, 104, 8) && Chain1(70, 71) && Chain1(71, 145) {}
  lemma Apart64()
    ensures Apart(25, 142, 78, 642, 0) && Apart(73, 146, 277, 655, 0) && Apart(8, 91, 20, 377, 0) &&
      Apart(8, 104, 20, 441, 0) && Apart(91, 104, 377, 441, 0)
  {}
  lemma Distinct64(h: int, i: int, j: int)
    requires 64 <= h < 72 && 0 < i < j && OnPath(h, i) && OnPath(h, j)
    ensures !SameText(i, j)
  {
    hide OnPath, SameText, Apart, Chain0, Chain1, Chain2, Chain3, Chain4;
    Chains64();
    Chains68();
    Apart64();
    if h == 64 { Members2(64, 142, 25, i); Members2(64, 142, 25, j); ApartMeans(25, 142, 78, 642, 0); }
    if h == 65 { Members1(65, 110, i); Members1(65, 110, j); }
    if h == 66 { Members1(66, 122, i); Members1(66, 122, j); }
    if h == 67 { Members0(67, i); Members0(67, j); }
    if h == 68 { Members2(68, 73, 146, i); Members2(68, 73, 146, j); ApartMeans(73, 146, 277, 655, 0); }
    if h == 69 {
      Members3(69, 91, 104, 8, i); Members3(69, 91, 104, 8, j); ApartMeans(8, 91, 20, 377, 0);
      ApartMeans(8, 104, 20, 441, 0); ApartMeans(91, 104, 377, 441, 0);
    }
    if h == 70 { Members1(70, 71, i); Members1(70, 71, j); }
    if h == 71 { Members1(71, 145, i); Members1(71, 145, j); }
  }

  lemma Chains72() ensures Chain1(72, 61) && Chain3(73, 120, 7, 43) && Chain2(74, 74, 3) && Chain0(75) {}
  lemma Chains76() ensures Chain2(76, 49, 77) && Chain0(77) && Chain2(78, 11, 114) && Chain1(79, 41) {}
  lemma Apart72()
    ensures Apart(7, 43, 16, 142, 0) && Apart(7, 120, 16, 527, 0) && Apart(43, 120, 142, 527, 0) &&
      Apart(3, 74, 2, 277, 0) && Apart(49, 77, 168, 288, 0) && Apart(11, 114, 25, 495, 0)
  {}
  lemma Distinct72(h: int, i: int, j: int)
    requires 72 <= h < 80 && 0 < i < j && OnPath(h, i) && OnPath(h, j)
    ensures !SameText(i, j)
  {
    hide OnPath, SameText, Apart, Chain0, Chain1, Chain2, Chain3, Chain4;
    Chains72();
    Chains76();
    Apart72();
    if h == 72 { Members1(72, 61, i); Members1(72, 61, j); }
    if h == 73 {
      Members3(73, 120, 7, 43, i); Members3(73, 120, 7, 43, j); ApartMeans(7, 43, 16, 142, 0);
      ApartMeans(7, 120, 16, 527, 0); ApartMeans(43, 120, 142, 527, 0);
    }
    if h == 74 { Members2(74, 74, 3, i); Members2(74, 74, 3, j); ApartMeans(3, 74, 2, 277, 0); }
    if h == 75 { Members0(75, i); Members0(75, j); }
    if h == 76 { Members2(76, 49, 77, i); Members2(76, 49, 77, j); ApartMeans(49, 77, 168, 288, 0); }
    if h == 77 { Members0(77, i); Members0(77, j); }
    if h == 78 { Members2(78, 11, 114, i); Members2(78, 11, 114, j); ApartMeans(11, 114, 25, 495, 0); }
    if h == 79 { Members1(79, 41, i); Members1(79, 41, j); }
  }

  lemma Chains80() ensures Chain0(80) && Chain1(81, 113) && Chain0(82) && Chain0(83) {}
  lemma Chains84() ensures Chain0(84) && Chain1(85, 109) && Chain2(86, 10, 106) && Chain1(87, 111) {}
  lemma Apart80() ensures Apart(10, 106, 25, 453, 0) {}
  lemma Distinct80(h: int, i: int, j: int)
    requires 80 <= h < 88 && 0 < i < j && OnPath(h, i) && OnPath(h, j)
    ensures !SameText(i, j)
  {
    hide OnPath, SameText, Apart, Chain0, Chain1, Chain2, Chain3, Chain4;
    Chains80();
    Chains84();
    Apart80();
    if h == 80 { Members0(80, i); Members0(80, j); }
    if h == 81 { Members1(81, 113, i); Members1(81, 113, j); }
    if h == 82 { Members0(82, i); Members0(82, j); }
    if h == 83 { Members0(83, i); Members0(83, j); }
    if h == 84 { Members0(84, i); Members0(84, j); }
    if h == 85 { Members1(85, 109, i); Members1(85, 109, j); }
    if h == 86 { Members2(86, 10, 106, i); Members2(86, 10, 106, j); ApartMeans(10, 106, 25, 453, 0); }
    if h == 87 { Members1(87, 111, i); Members1(87, 111, j); }
  }

  lemma Chains88()
    ensures Chain3(88, 116, 101, 46) && Chain3(89, 125, 118, 112) && Chain1(90, 14) && Chain1(91, 50)
  {}
  lemma Chains92() ensures Chain2(92, 124, 96) && Chain0(93) && Chain1(94, 100) && Chain0(95) {}
  lemma Apart88()
    ensures Apart(46, 101, 152, 429, 1) && Apart(46, 116, 152, 495, 0) && Apart(101, 116, 429, 495, 0) &&
      Apart(112, 118, 482, 520, 0) && Apart(112, 125, 482, 557, 0) && Apart(118, 125, 520, 557, 1) &&
      Apart(96, 124, 402, 553, 0)
  {}
  lemma Distinct88(h: int, i: int, j: int)
    requires 88 <= h < 96 && 0 < i < j && OnPath(h, i) && OnPath(h, j)
    ensures !SameText(i, j)
  {
    hide OnPath, SameText, Apart, Chain0, Chain1, Chain2, Chain3, Chain4;
    Chains88();
    Chains92();
    Apart88();
    if h == 88 {
      Members3(88, 116, 101, 46, i); Members3(88, 116, 101, 46, j); ApartMeans(46, 101, 152, 429, 1);
      ApartMeans(46, 116, 152, 495, 0); ApartMeans(101, 116, 429, 495, 0);
    }
    if h == 89 {
      Members3(89, 125, 118, 112, i); Members3(89, 125, 118, 112, j); ApartMeans(112, 118, 482, 520, 0);
      ApartMeans(112, 125, 482, 557, 0); ApartMeans(118, 125, 520, 557, 1);
    }
    if h == 90 { Members1(90, 14, i); Members1(90, 14, j); }
    if h == 91 { Members1(91, 50, i); Members1(91, 50, j); }
    if h == 92 { Members2(92, 124, 96, i); Members2(92, 124, 96, j); ApartMeans(96, 124, 402, 553, 0); }
    if h == 93 { Members0(93, i); Members0(93, j); }
    if h == 94 { Members1(94, 100, i); Members1(94, 100, j); }
    if h == 95 { Members0(95, i); Members0(95, j); }
  }

  lemma Chains96()
    ensures Chain2(96, 18, 143) && Chain3(97, 121, 67, 69) && Chain2(98, 144, 102) && Chain2(99, 56, 47)
  {}
  lemma Chains100() ensures Chain1(100, 130) && Chain2(101, 139, 32) && Chain1(102, 88) && Chain3(103, 83, 31, 52) {}
  lemma Apart96()
    ensures Apart(18, 143, 53, 645, 0) && Apart(67, 69, 244, 252, 0) && Apart(67, 121, 244, 532, 0) &&
      Apart(69, 121, 252, 532, 2) && Apart(102, 144, 433, 648, 0) && Apart(47, 56, 156, 195, 2) &&
      Apart(32, 139, 101, 628, 0) && Apart(31, 52, 99, 184, 0) && Apart(31, 83, 99, 333, 0) &&
      Apart(52, 83, 184, 333, 0)
  {}
  lemma Distinct96(h: int, i: int, j: int)
    requires 96 <= h < 104 && 0 < i < j && OnPath(h, i) && OnPath(h, j)
    ensures !SameText(i, j)
  {
    hide OnPath, SameText, Apart, Chain0, Chain1, Chain2, Chain3, Chain4;
    Chains96();
    Chains100();
    Apart96();
    if h == 96 { Members2(96, 18, 143, i); Members2(96, 18, 143, j); ApartMeans(18, 143, 53, 645, 0); }
    if h == 97 {
      Members3(97, 121, 67, 69, i); Members3(97, 121, 67, 69, j); ApartMeans(67, 69, 244, 252, 0);
      ApartMeans(67, 121, 244, 532, 0); ApartMeans(69, 121, 252, 532, 2);
    }
    if h == 98 { Members2(98, 144, 102, i); Members2(98, 144, 102, j); ApartMeans(102, 144, 433, 648, 0); }
    if h == 99 { Members2(99, 56, 47, i); Members2(99, 56, 47, j); ApartMeans(47, 56, 156, 195, 2); }
    if h == 100 { Members1(100, 130, i); Members1(100, 130, j); }
    if h == 101 { Members2(101, 139, 32, i); Members2(101, 139, 32, j); ApartMeans(32, 139, 101, 628, 0); }
    if h == 102 { Members1(102, 88, i); Members1(102, 88, j); }
    if h == 103 {
      Members3(103, 83, 31, 52, i); Members3(103, 83, 31, 52, j); ApartMeans(31, 52, 99, 184, 0);
      ApartMeans(31, 83, 99, 333, 0); ApartMeans(52, 83, 184, 333, 0);
    }
  }

  lemma Chains104() ensures Chain1(104, 37) && Chain3(105, 30, 119, 21) && Chain1(106, 126) && Chain0(107) {}
  lemma Chains108() ensures Chain0(108) && Chain1(109, 108) && Chain1(110, 51) && Chain2(111, 131, 99) {}
  lemma Apart104()
    ensures Apart(21, 30, 62, 94, 0) && Apart(21, 119, 62, 523, 1) && Apart(30, 119, 94, 523, 0) &&
      Apart(99, 131, 415, 585, 0)
  {}
  lemma Distinct104(h: int, i: int, j: int)
    requires 104 <= h < 112 && 0 < i < j && OnPath(h, i) && OnPath(h, j)
    ensures !SameText(i, j)
  {
    hide OnPath, SameText, Apart, Chain0, Chain1, Chain2, Chain3, Chain4;
    Chains104();
    Chains108();
    Apart104();
    if h == 104 { Members1(104, 37, i); Members1(104, 37, j); }
    if h == 105 {
      Members3(105, 30, 119, 21, i); Members3(105, 30, 119, 21, j); ApartMeans(21, 30, 62, 94, 0);
      ApartMeans(21, 119, 62, 523, 1); ApartMeans(30, 119, 94, 523, 0);
    }
    if h == 106 { Members1(106, 126, i); Members1(106, 126, j); }
    if h == 107 { Members0(107, i); Members0(107, j); }
    if h == 108 { Members0(108, i); Members0(108, j); }
    if h == 109 { Members1(109, 108, i); Members1(109, 108, j); }
    if h == 110 { Members1(110, 51, i); Members1(110, 51, j); }
    if h == 111 { Members2(111, 131, 99, i); Members2(111, 131, 99, j); ApartMeans(99, 131, 415, 585, 0); }
  }

  lemma Chains112() ensures Chain2(112, 128, 68) && Chain0(113) && Chain2(114, 34, 137) && Chain0(115) {}
  lemma Chains116() ensures Chain0(116) && Chain2(117, 132, 44) && Chain0(118) && Chain1(119, 98) {}
  lemma Apart112()
    ensures Apart(68, 128, 248, 567, 1) && Apart(34, 137, 111, 614, 0) && Apart(44, 132, 146, 588, 0)
  {}
  lemma Distinct112(h: int, i: int, j: int)
    requires 112 <= h < 120 && 0 < i < j && OnPath(h, i) && OnPath(h, j)
    ensures !SameText(i, j)
  {
    hide OnPath, SameText, Apart, Chain0, Chain1, Chain2, Chain3, Chain4;
    Chains112();
    Chains116();
    Apart112();
    if h == 112 { Members2(112, 128, 68, i); Members2(112, 128, 68, j); ApartMeans(68, 128, 248, 567, 1); }
    if h == 113 { Members0(113, i); Members0(113, j); }
    if h == 114 { Members2(114, 34, 137, i); Members2(114, 34, 137, j); ApartMeans(34, 137, 111, 614, 0); }
    if h == 115 { Members0(115, i); Members0(115, j); }
    if h == 116 { Members0(116, i); Members0(116, j); }
    if h == 117 { Members2(117, 132, 44, i); Members2(117, 132, 44, j); ApartMeans(44, 132, 146, 588, 0); }
    if h == 118 { Members0(118, i); Members0(118, j); }
    if h == 119 { Members1(119, 98, i); Members1(119, 98, j); }
  }

  lemma Chains120() ensures Chain2(120, 38, 62) && Chain1(121, 39) && Chain0(122) && Chain1(123, 20) {}
  lemma Chains124() ensures Chain2(124, 45, 36) && Chain1(125, 117) && Chain2(126, 93, 64) {}
  lemma Apart120() ensures Apart(38, 62, 123, 222, 0) && Apart(36, 45, 123, 147, 1) && Apart(64, 93, 236, 385, 1) {}
  lemma Distinct120(h: int, i: int, j: int)
    requires 120 <= h < 127 && 0 < i < j && OnPath(h, i) && OnPath(h, j)
    ensures !SameText(i, j)
  {
    hide OnPath, SameText, Apart, Chain0, Chain1, Chain2, Chain3, Chain4;
    Chains120();
    Chains124();
    Apart120();
    if h == 120 { Members2(120, 38, 62, i); Members2(120, 38, 62, j); ApartMeans(38, 62, 123, 222, 0); }
    if h == 121 { Members1(121, 39, i); Members1(121, 39, j); }
    if h == 122 { Members0(122, i); Members0(122, j); }
    if h == 123 { Members1(123, 20, i); Members1(123, 20, j); }
    if h == 124 { Members2(124, 45, 36, i); Members2(124, 45, 36, j); ApartMeans(36, 45, 123, 147, 1); }
    if h == 125 { Members1(125, 117, i); Members1(125, 117, j); }
    if h == 126 { Members2(126, 93, 64, i); Members2(126, 93, 64, j); ApartMeans(64, 93, 236, 385, 1); }
  }
}
