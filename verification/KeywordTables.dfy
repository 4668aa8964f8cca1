/** The compressed keyword hash, as generated: the overlapped keyword text, the
    hash heads, the collision chains and the lengths and offsets of 147 keywords. */
module KeywordTables {

  const SQLITE_N_KEYWORD := 147
  const TEXT_LENGTH := 666

  function Ten(k: int, a0: int, a1: int, a2: int, a3: int, a4: int, a5: int, a6: int, a7: int, a8: int, a9: int): int {
    if k == 0 then a0 else if k == 1 then a1 else if k == 2 then a2 else if k == 3 then a3 else if k == 4 then a4
    else if k == 5 then a5 else if k == 6 then a6 else if k == 7 then a7 else if k == 8 then a8 else a9
  }

  function TenBytes(k: int, a0: bv8, a1: bv8, a2: bv8, a3: bv8, a4: bv8, a5: bv8, a6: bv8, a7: bv8, a8: bv8,
      a9: bv8): bv8 {
    if k == 0 then a0 else if k == 1 then a1 else if k == 2 then a2 else if k == 3 then a3 else if k == 4 then a4
    else if k == 5 then a5 else if k == 6 then a6 else if k == 7 then a7 else if k == 8 then a8 else a9
  }

  // zKWText, a hundred letters a function.
  function Text0(i: int): bv8 {
    if i < 10 then TenBytes(i, 82, 69, 73, 78, 68, 69, 88, 69, 68, 69)
    else if i < 20 then TenBytes(i - 10, 83, 67, 65, 80, 69, 65, 67, 72, 69, 67)
    else if i < 30 then TenBytes(i - 20, 75, 69, 89, 66, 69, 70, 79, 82, 69, 73)
    else if i < 40 then TenBytes(i - 30, 71, 78, 79, 82, 69, 71, 69, 88, 80, 76)
    else if i < 50 then TenBytes(i - 40, 65, 73, 78, 83, 84, 69, 65, 68, 68, 65)
    else if i < 60 then TenBytes(i - 50, 84, 65, 66, 65, 83, 69, 76, 69, 67, 84)
    else if i < 70 then TenBytes(i - 60, 65, 66, 76, 69, 70, 84, 72, 69, 78, 68)
    else if i < 80 then TenBytes(i - 70, 69, 70, 69, 82, 82, 65, 66, 76, 69, 76)
    else if i < 90 then TenBytes(i - 80, 83, 69, 88, 67, 76, 85, 68, 69, 76, 69)
    else TenBytes(i - 90, 84, 69, 77, 80, 79, 82, 65, 82, 89, 73)
  }

  function Text1(i: int): bv8 {
    if i < 110 then TenBytes(i - 100, 83, 78, 85, 76, 76, 83, 65, 86, 69, 80)
    else if i < 120 then TenBytes(i - 110, 79, 73, 78, 84, 69, 82, 83, 69, 67, 84)
    else if i < 130 then TenBytes(i - 120, 73, 69, 83, 78, 79, 84, 78, 85, 76, 76)
    else if i < 140 then TenBytes(i - 130, 73, 75, 69, 88, 67, 69, 80, 84, 82, 65)
    else if i < 150 then TenBytes(i - 140, 78, 83, 65, 67, 84, 73, 79, 78, 65, 84)
    else if i < 160 then TenBytes(i - 150, 85, 82, 65, 76, 84, 69, 82, 65, 73, 83)
    else if i < 170 then TenBytes(i - 160, 69, 88, 67, 76, 85, 83, 73, 86, 69, 88)
    else if i < 180 then TenBytes(i - 170, 73, 83, 84, 83, 67, 79, 78, 83, 84, 82)
    else if i < 190 then TenBytes(i - 180, 65, 73, 78, 84, 79, 70, 70, 83, 69, 84)
    else TenBytes(i - 190, 82, 73, 71, 71, 69, 82, 65, 78, 71, 69)
  }

  function Text2(i: int): bv8 {
    if i < 210 then TenBytes(i - 200, 78, 69, 82, 65, 84, 69, 68, 69, 84, 65)
    else if i < 220 then TenBytes(i - 210, 67, 72, 65, 86, 73, 78, 71, 76, 79, 66)
    else if i < 230 then TenBytes(i - 220, 69, 71, 73, 78, 78, 69, 82, 69, 70, 69)
    else if i < 240 then TenBytes(i - 230, 82, 69, 78, 67, 69, 83, 85, 78, 73, 81)
    else if i < 250 then TenBytes(i - 240, 85, 69, 82, 89, 87, 73, 84, 72, 79, 85)
    else if i < 260 then TenBytes(i - 250, 84, 69, 82, 69, 76, 69, 65, 83, 69, 65)
    else if i < 270 then TenBytes(i - 260, 84, 84, 65, 67, 72, 66, 69, 84, 87, 69)
    else if i < 280 then TenBytes(i - 270, 69, 78, 79, 84, 72, 73, 78, 71, 82, 79)
    else if i < 290 then TenBytes(i - 280, 85, 80, 83, 67, 65, 83, 67, 65, 68, 69)
    else TenBytes(i - 290, 70, 65, 85, 76, 84, 67, 65, 83, 69, 67)
  }

  function Text3(i: int): bv8 {
    if i < 310 then TenBytes(i - 300, 79, 76, 76, 65, 84, 69, 67, 82, 69, 65)
    else if i < 320 then TenBytes(i - 310, 84, 69, 67, 85, 82, 82, 69, 78, 84, 95)
    else if i < 330 then TenBytes(i - 320, 68, 65, 84, 69, 73, 77, 77, 69, 68, 73)
    else if i < 340 then TenBytes(i - 330, 65, 84, 69, 74, 79, 73, 78, 83, 69, 82)
    else if i < 350 then TenBytes(i - 340, 84, 77, 65, 84, 67, 72, 80, 76, 65, 78)
    else if i < 360 then TenBytes(i - 350, 65, 76, 89, 90, 69, 80, 82, 65, 71, 77)
    else if i < 370 then TenBytes(i - 360, 65, 84, 69, 82, 73, 65, 76, 73, 90, 69)
    else if i < 380 then TenBytes(i - 370, 68, 69, 70, 69, 82, 82, 69, 68, 73, 83)
    else if i < 390 then TenBytes(i - 380, 84, 73, 78, 67, 84, 85, 80, 68, 65, 84)
    else TenBytes(i - 390, 69, 86, 65, 76, 85, 69, 83, 86, 73, 82)
  }

  function Text4(i: int): bv8 {
    if i < 410 then TenBytes(i - 400, 84, 85, 65, 76, 87, 65, 89, 83, 87, 72)
    else if i < 420 then TenBytes(i - 410, 69, 78, 87, 72, 69, 82, 69, 67, 85, 82)
    else if i < 430 then TenBytes(i - 420, 83, 73, 86, 69, 65, 66, 79, 82, 84, 65)
    else if i < 440 then TenBytes(i - 430, 70, 84, 69, 82, 69, 78, 65, 77, 69, 65)
    else if i < 450 then TenBytes(i - 440, 78, 68, 82, 79, 80, 65, 82, 84, 73, 84)
    else if i < 460 then TenBytes(i - 450, 73, 79, 78, 65, 85, 84, 79, 73, 78, 67)
    else if i < 470 then TenBytes(i - 460, 82, 69, 77, 69, 78, 84, 67, 65, 83, 84)
    else if i < 480 then TenBytes(i - 470, 67, 79, 76, 85, 77, 78, 67, 79, 77, 77)
    else if i < 490 then TenBytes(i - 480, 73, 84, 67, 79, 78, 70, 76, 73, 67, 84)
    else TenBytes(i - 490, 67, 82, 79, 83, 83, 67, 85, 82, 82, 69)
  }

  function Text5(i: int): bv8 {
    if i < 510 then TenBytes(i - 500, 78, 84, 95, 84, 73, 77, 69, 83, 84, 65)
    else if i < 520 then TenBytes(i - 510, 77, 80, 82, 69, 67, 69, 68, 73, 78, 71)
    else if i < 530 then TenBytes(i - 520, 70, 65, 73, 76, 65, 83, 84, 70, 73, 76)
    else if i < 540 then TenBytes(i - 530, 84, 69, 82, 69, 80, 76, 65, 67, 69, 70)
    else if i < 550 then TenBytes(i - 540, 73, 82, 83, 84, 70, 79, 76, 76, 79, 87)
    else if i < 560 then TenBytes(i - 550, 73, 78, 71, 70, 82, 79, 77, 70, 85, 76)
    else if i < 570 then TenBytes(i - 560, 76, 73, 77, 73, 84, 73, 70, 79, 82, 68)
    else if i < 580 then TenBytes(i - 570, 69, 82, 69, 83, 84, 82, 73, 67, 84, 79)
    else if i < 590 then TenBytes(i - 580, 84, 72, 69, 82, 83, 79, 86, 69, 82, 69)
    else TenBytes(i - 590, 84, 85, 82, 78, 73, 78, 71, 82, 73, 71)
  }

  function Text6(i: int): bv8 {
    if i < 610 then TenBytes(i - 600, 72, 84, 82, 79, 76, 76, 66, 65, 67, 75)
    else if i < 620 then TenBytes(i - 610, 82, 79, 87, 83, 85, 78, 66, 79, 85, 78)
    else if i < 630 then TenBytes(i - 620, 68, 69, 68, 85, 78, 73, 79, 78, 85, 83)
    else if i < 640 then TenBytes(i - 630, 73, 78, 71, 86, 65, 67, 85, 85, 77, 86)
    else if i < 650 then TenBytes(i - 640, 73, 69, 87, 73, 78, 68, 79, 87, 66, 89)
    else if i < 660 then TenBytes(i - 650, 73, 78, 73, 84, 73, 65, 76, 76, 89, 80)
    else TenBytes(i - 660, 82, 73, 77, 65, 82, 89, 0, 0, 0, 0)
  }

  function KwText(i: int): bv8 {
    if i < 100 then Text0(i)
    else if i < 200 then Text1(i)
    else if i < 300 then Text2(i)
    else if i < 400 then Text3(i)
    else if i < 500 then Text4(i)
    else if i < 600 then Text5(i)
    else Text6(i)
  }

  function KwHash(i: int): int {
    if i < 10 then Ten(i, 84, 92, 134, 82, 105, 29, 0, 0, 94, 0)
    else if i < 20 then Ten(i - 10, 85, 72, 0, 53, 35, 86, 15, 0, 42, 97)
    else if i < 30 then Ten(i - 20, 54, 89, 135, 19, 0, 0, 140, 0, 40, 129)
    else if i < 40 then Ten(i - 30, 0, 22, 107, 0, 9, 0, 0, 123, 80, 0)
    else if i < 50 then Ten(i - 40, 78, 6, 0, 65, 103, 147, 0, 136, 115, 0)
    else if i < 60 then Ten(i - 50, 0, 48, 0, 90, 24, 0, 17, 0, 27, 70)
    else if i < 70 then Ten(i - 60, 23, 26, 5, 60, 142, 110, 122, 0, 73, 91)
    else if i < 80 then Ten(i - 70, 71, 145, 61, 120, 74, 0, 49, 0, 11, 41)
    else if i < 90 then Ten(i - 80, 0, 113, 0, 0, 0, 109, 10, 111, 116, 125)
    else if i < 100 then Ten(i - 90, 14, 50, 124, 0, 100, 0, 18, 121, 144, 56)
    else if i < 110 then Ten(i - 100, 130, 139, 88, 83, 37, 30, 126, 0, 0, 108)
    else if i < 120 then Ten(i - 110, 51, 131, 128, 0, 34, 0, 0, 132, 0, 98)
    else Ten(i - 120, 38, 39, 0, 20, 45, 117, 93, 0, 0, 0)
  }

  function KwNext(i: int): int {
    if i < 10 then Ten(i, 0, 0, 0, 0, 0, 4, 0, 43, 0, 0)
    else if i < 20 then Ten(i - 10, 106, 114, 0, 0, 0, 2, 0, 0, 143, 0)
    else if i < 30 then Ten(i - 20, 0, 0, 13, 0, 0, 0, 0, 141, 0, 0)
    else if i < 40 then Ten(i - 30, 119, 52, 0, 0, 137, 12, 0, 0, 62, 0)
    else if i < 50 then Ten(i - 40, 138, 0, 133, 0, 0, 36, 0, 0, 28, 77)
    else if i < 60 then Ten(i - 50, 0, 0, 0, 0, 59, 0, 47, 0, 0, 0)
    else if i < 70 then Ten(i - 60, 0, 0, 0, 0, 0, 0, 0, 69, 0, 0)
    else if i < 80 then Ten(i - 70, 0, 0, 0, 146, 3, 0, 58, 0, 1, 75)
    else if i < 90 then Ten(i - 80, 0, 0, 0, 31, 0, 0, 0, 0, 0, 127)
    else if i < 100 then Ten(i - 90, 0, 104, 0, 64, 66, 63, 0, 0, 0, 0)
    else if i < 110 then Ten(i - 100, 0, 46, 0, 16, 8, 0, 0, 0, 0, 0)
    else if i < 120 then Ten(i - 110, 0, 0, 0, 0, 0, 81, 101, 0, 112, 21)
    else if i < 130 then Ten(i - 120, 7, 67, 0, 79, 96, 118, 0, 0, 68, 0)
    else if i < 140 then Ten(i - 130, 0, 99, 44, 0, 55, 0, 76, 0, 95, 32)
    else Ten(i - 140, 33, 57, 25, 0, 102, 0, 0, 87, 0, 0)
  }

  function KwLen(i: int): int {
    if i < 10 then Ten(i, 0, 7, 7, 5, 4, 6, 4, 5, 3, 6)
    else if i < 20 then Ten(i - 10, 7, 3, 6, 6, 7, 7, 3, 8, 2, 6)
    else if i < 30 then Ten(i - 20, 5, 4, 4, 3, 10, 4, 7, 6, 9, 4)
    else if i < 40 then Ten(i - 30, 2, 6, 5, 9, 9, 4, 7, 3, 2, 4)
    else if i < 50 then Ten(i - 40, 4, 6, 11, 6, 2, 7, 5, 5, 9, 6)
    else if i < 60 then Ten(i - 50, 10, 4, 6, 2, 3, 7, 5, 9, 6, 6)
    else if i < 70 then Ten(i - 60, 4, 5, 5, 10, 6, 5, 7, 4, 5, 7)
    else if i < 80 then Ten(i - 70, 6, 7, 7, 6, 5, 7, 3, 7, 4, 7)
    else if i < 90 then Ten(i - 80, 6, 12, 9, 4, 6, 5, 4, 7, 6, 12)
    else if i < 100 then Ten(i - 90, 8, 8, 2, 6, 6, 7, 6, 4, 5, 9)
    else if i < 110 then Ten(i - 100, 5, 5, 6, 3, 4, 9, 13, 2, 2, 4)
    else if i < 120 then Ten(i - 110, 6, 6, 8, 5, 17, 12, 7, 9, 4, 4)
    else if i < 130 then Ten(i - 120, 6, 7, 5, 9, 4, 4, 5, 2, 5, 8)
    else if i < 140 then Ten(i - 130, 6, 4, 9, 5, 8, 4, 3, 9, 5, 5)
    else Ten(i - 140, 6, 4, 6, 2, 2, 9, 3, 7, 0, 0)
  }

  function KwOffset(i: int): int {
    if i < 10 then Ten(i, 0, 0, 2, 2, 8, 9, 14, 16, 20, 23)
    else if i < 20 then Ten(i - 10, 25, 25, 29, 33, 36, 41, 46, 48, 53, 54)
    else if i < 30 then Ten(i - 20, 59, 62, 65, 67, 69, 78, 81, 86, 90, 90)
    else if i < 40 then Ten(i - 30, 94, 99, 101, 105, 111, 119, 123, 123, 123, 126)
    else if i < 50 then Ten(i - 40, 129, 132, 137, 142, 146, 147, 152, 156, 160, 168)
    else if i < 60 then Ten(i - 50, 174, 181, 184, 184, 187, 189, 195, 198, 206, 211)
    else if i < 70 then Ten(i - 60, 216, 219, 222, 226, 236, 239, 244, 244, 248, 252)
    else if i < 80 then Ten(i - 70, 259, 265, 271, 277, 277, 283, 284, 288, 295, 299)
    else if i < 90 then Ten(i - 80, 306, 312, 324, 333, 335, 341, 346, 348, 355, 359)
    else if i < 100 then Ten(i - 90, 370, 377, 378, 385, 391, 397, 402, 408, 412, 415)
    else if i < 110 then Ten(i - 100, 424, 429, 433, 439, 441, 444, 453, 455, 457, 466)
    else if i < 120 then Ten(i - 110, 470, 476, 482, 490, 495, 495, 495, 511, 520, 523)
    else if i < 130 then Ten(i - 120, 527, 532, 539, 544, 553, 557, 560, 565, 567, 571)
    else if i < 140 then Ten(i - 130, 579, 585, 588, 597, 602, 610, 610, 614, 623, 628)
    else Ten(i - 140, 633, 639, 642, 645, 648, 650, 655, 659, 0, 0)
  }

}
