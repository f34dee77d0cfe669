/** The final board of the demonstration run, stated in full: a regression
    check of the three placements against the expected board. */
module Golden {
  import opened Grid
  import opened Scenario

  /** The whole final demonstration board, row by row. */
  const GOLDEN: seq<seq<int>> := [
    [0, 0, 5, 5, 5, 5, 5, 0, 0, 0],
    [0, 5, 5, 5, 5, 5, 5, 5, 0, 0],
    [0, 5, 8, 8, 8, 5, 5, 5, 0, 0],
    [0, 5, 5, 5, 5, 5, 5, 5, 0, 0],
    [0, 5, 5, 5, 5, 8, 5, 5, 0, 0],
    [5, 5, 5, 5, 5, 5, 5, 5, 5, 0],
    [0, 0, 5, 0, 0, 5, 5, 8, 5, 5],
    [0, 0, 5, 0, 5, 5, 5, 8, 5, 5],
    [0, 0, 5, 0, 0, 5, 5, 5, 5, 5],
    [0, 0, 0, 0, 0, 0, 5, 5, 5, 0]
  ]

  /** A 10x10 board with the entries of GOLDEN is GOLDEN. */
  lemma Assemble(f: seq<seq<int>>)
    requires IsBoard(f)
    requires f[0][0] == 0 && f[0][1] == 0 && f[0][2] == 5 && f[0][3] == 5 && f[0][4] == 5 && f[0][5] == 5 && f[0][6] == 5 && f[0][7] == 0 && f[0][8] == 0 && f[0][9] == 0
    requires f[1][0] == 0 && f[1][1] == 5 && f[1][2] == 5 && f[1][3] == 5 && f[1][4] == 5 && f[1][5] == 5 && f[1][6] == 5 && f[1][7] == 5 && f[1][8] == 0 && f[1][9] == 0
    requires f[2][0] == 0 && f[2][1] == 5 && f[2][2] == 8 && f[2][3] == 8 && f[2][4] == 8 && f[2][5] == 5 && f[2][6] == 5 && f[2][7] == 5 && f[2][8] == 0 && f[2][9] == 0
    requires f[3][0] == 0 && f[3][1] == 5 && f[3][2] == 5 && f[3][3] == 5 && f[3][4] == 5 && f[3][5] == 5 && f[3][6] == 5 && f[3][7] == 5 && f[3][8] == 0 && f[3][9] == 0
    requires f[4][0] == 0 && f[4][1] == 5 && f[4][2] == 5 && f[4][3] == 5 && f[4][4] == 5 && f[4][5] == 8 && f[4][6] == 5 && f[4][7] == 5 && f[4][8] == 0 && f[4][9] == 0
    requires f[5][0] == 5 && f[5][1] == 5 && f[5][2] == 5 && f[5][3] == 5 && f[5][4] == 5 && f[5][5] == 5 && f[5][6] == 5 && f[5][7] == 5 && f[5][8] == 5 && f[5][9] == 0
    requires f[6][0] == 0 && f[6][1] == 0 && f[6][2] == 5 && f[6][3] == 0 && f[6][4] == 0 && f[6][5] == 5 && f[6][6] == 5 && f[6][7] == 8 && f[6][8] == 5 && f[6][9] == 5
    requires f[7][0] == 0 && f[7][1] == 0 && f[7][2] == 5 && f[7][3] == 0 && f[7][4] == 5 && f[7][5] == 5 && f[7][6] == 5 && f[7][7] == 8 && f[7][8] == 5 && f[7][9] == 5
    requires f[8][0] == 0 && f[8][1] == 0 && f[8][2] == 5 && f[8][3] == 0 && f[8][4] == 0 && f[8][5] == 5 && f[8][6] == 5 && f[8][7] == 5 && f[8][8] == 5 && f[8][9] == 5
    requires f[9][0] == 0 && f[9][1] == 0 && f[9][2] == 0 && f[9][3] == 0 && f[9][4] == 0 && f[9][5] == 0 && f[9][6] == 5 && f[9][7] == 5 && f[9][8] == 5 && f[9][9] == 0
    ensures f == GOLDEN
  {
    MatrixExt(f, GOLDEN, BOARD_SIZE, BOARD_SIZE);
  }

  // One lemma per cell of the final board, each through the two intermediate boards.

  lemma FinalAt0_0()
    ensures Final()[0][0] == 0
  {
    assert AfterCone()[0][0] == 0;
    assert AfterCross()[0][0] == 0;
  }

  lemma FinalAt0_1()
    ensures Final()[0][1] == 0
  {
    assert AfterCone()[0][1] == 0;
    assert AfterCross()[0][1] == 0;
  }

  lemma FinalAt0_2()
    ensures Final()[0][2] == 5
  {
    assert AfterCone()[0][2] == 5;
    assert AfterCross()[0][2] == 5;
  }

  lemma FinalAt0_3()
    ensures Final()[0][3] == 5
  {
    assert AfterCone()[0][3] == 5;
    assert AfterCross()[0][3] == 5;
  }

  lemma FinalAt0_4()
    ensures Final()[0][4] == 5
  {
    assert AfterCone()[0][4] == 5;
    assert AfterCross()[0][4] == 5;
  }

  lemma FinalAt0_5()
    ensures Final()[0][5] == 5
  {
    assert AfterCone()[0][5] == 5;
    assert AfterCross()[0][5] == 5;
  }

  lemma FinalAt0_6()
    ensures Final()[0][6] == 5
  {
    assert AfterCone()[0][6] == 5;
    assert AfterCross()[0][6] == 5;
  }

  lemma FinalAt0_7()
    ensures Final()[0][7] == 0
  {
    assert AfterCone()[0][7] == 0;
    assert AfterCross()[0][7] == 0;
  }

  lemma FinalAt0_8()
    ensures Final()[0][8] == 0
  {
    assert AfterCone()[0][8] == 0;
    assert AfterCross()[0][8] == 0;
  }

  lemma FinalAt0_9()
    ensures Final()[0][9] == 0
  {
    assert AfterCone()[0][9] == 0;
    assert AfterCross()[0][9] == 0;
  }

  lemma FinalAt1_0()
    ensures Final()[1][0] == 0
  {
    assert AfterCone()[1][0] == 0;
    assert AfterCross()[1][0] == 0;
  }

  lemma FinalAt1_1()
    ensures Final()[1][1] == 5
  {
    assert AfterCone()[1][1] == 5;
    assert AfterCross()[1][1] == 5;
  }

  lemma FinalAt1_2()
    ensures Final()[1][2] == 5
  {
    assert AfterCone()[1][2] == 5;
    assert AfterCross()[1][2] == 5;
  }

  lemma FinalAt1_3()
    ensures Final()[1][3] == 5
  {
    assert AfterCone()[1][3] == 5;
    assert AfterCross()[1][3] == 5;
  }

  lemma FinalAt1_4()
    ensures Final()[1][4] == 5
  {
    assert AfterCone()[1][4] == 5;
    assert AfterCross()[1][4] == 5;
  }

  lemma FinalAt1_5()
    ensures Final()[1][5] == 5
  {
    assert AfterCone()[1][5] == 5;
    assert AfterCross()[1][5] == 5;
  }

  lemma FinalAt1_6()
    ensures Final()[1][6] == 5
  {
    assert AfterCone()[1][6] == 5;
    assert AfterCross()[1][6] == 5;
  }

  lemma FinalAt1_7()
    ensures Final()[1][7] == 5
  {
    assert AfterCone()[1][7] == 5;
    assert AfterCross()[1][7] == 5;
  }

  lemma FinalAt1_8()
    ensures Final()[1][8] == 0
  {
    assert AfterCone()[1][8] == 0;
    assert AfterCross()[1][8] == 0;
  }

  lemma FinalAt1_9()
    ensures Final()[1][9] == 0
  {
    assert AfterCone()[1][9] == 0;
    assert AfterCross()[1][9] == 0;
  }

  lemma FinalAt2_0()
    ensures Final()[2][0] == 0
  {
    assert AfterCone()[2][0] == 0;
    assert AfterCross()[2][0] == 0;
  }

  lemma FinalAt2_1()
    ensures Final()[2][1] == 5
  {
    assert AfterCone()[2][1] == 5;
    assert AfterCross()[2][1] == 5;
  }

  lemma FinalAt2_2()
    ensures Final()[2][2] == 8
  {
    assert AfterCone()[2][2] == 8;
    assert AfterCross()[2][2] == 8;
  }

  lemma FinalAt2_3()
    ensures Final()[2][3] == 8
  {
    assert AfterCone()[2][3] == 8;
    assert AfterCross()[2][3] == 8;
  }

  lemma FinalAt2_4()
    ensures Final()[2][4] == 8
  {
    assert AfterCone()[2][4] == 8;
    assert AfterCross()[2][4] == 8;
  }

  lemma FinalAt2_5()
    ensures Final()[2][5] == 5
  {
    assert AfterCone()[2][5] == 5;
    assert AfterCross()[2][5] == 5;
  }

  lemma FinalAt2_6()
    ensures Final()[2][6] == 5
  {
    assert AfterCone()[2][6] == 5;
    assert AfterCross()[2][6] == 5;
  }

  lemma FinalAt2_7()
    ensures Final()[2][7] == 5
  {
    assert AfterCone()[2][7] == 5;
    assert AfterCross()[2][7] == 5;
  }

  lemma FinalAt2_8()
    ensures Final()[2][8] == 0
  {
    assert AfterCone()[2][8] == 0;
    assert AfterCross()[2][8] == 0;
  }

  lemma FinalAt2_9()
    ensures Final()[2][9] == 0
  {
    assert AfterCone()[2][9] == 0;
    assert AfterCross()[2][9] == 0;
  }

  lemma FinalAt3_0()
    ensures Final()[3][0] == 0
  {
    assert AfterCone()[3][0] == 0;
    assert AfterCross()[3][0] == 0;
  }

  lemma FinalAt3_1()
    ensures Final()[3][1] == 5
  {
    assert AfterCone()[3][1] == 5;
    assert AfterCross()[3][1] == 5;
  }

  lemma FinalAt3_2()
    ensures Final()[3][2] == 5
  {
    assert AfterCone()[3][2] == 5;
    assert AfterCross()[3][2] == 5;
  }

  lemma FinalAt3_3()
    ensures Final()[3][3] == 5
  {
    assert AfterCone()[3][3] == 5;
    assert AfterCross()[3][3] == 5;
  }

  lemma FinalAt3_4()
    ensures Final()[3][4] == 5
  {
    assert AfterCone()[3][4] == 5;
    assert AfterCross()[3][4] == 5;
  }

  lemma FinalAt3_5()
    ensures Final()[3][5] == 5
  {
    assert AfterCone()[3][5] == 5;
    assert AfterCross()[3][5] == 5;
  }

  lemma FinalAt3_6()
    ensures Final()[3][6] == 5
  {
    assert AfterCone()[3][6] == 5;
    assert AfterCross()[3][6] == 5;
  }

  lemma FinalAt3_7()
    ensures Final()[3][7] == 5
  {
    assert AfterCone()[3][7] == 5;
    assert AfterCross()[3][7] == 5;
  }

  lemma FinalAt3_8()
    ensures Final()[3][8] == 0
  {
    assert AfterCone()[3][8] == 0;
    assert AfterCross()[3][8] == 0;
  }

  lemma FinalAt3_9()
    ensures Final()[3][9] == 0
  {
    assert AfterCone()[3][9] == 0;
    assert AfterCross()[3][9] == 0;
  }

  lemma FinalAt4_0()
    ensures Final()[4][0] == 0
  {
    assert AfterCone()[4][0] == 0;
    assert AfterCross()[4][0] == 0;
  }

  lemma FinalAt4_1()
    ensures Final()[4][1] == 5
  {
    assert AfterCone()[4][1] == 5;
    assert AfterCross()[4][1] == 5;
  }

  lemma FinalAt4_2()
    ensures Final()[4][2] == 5
  {
    assert AfterCone()[4][2] == 5;
    assert AfterCross()[4][2] == 5;
  }

  lemma FinalAt4_3()
    ensures Final()[4][3] == 5
  {
    assert AfterCone()[4][3] == 5;
    assert AfterCross()[4][3] == 5;
  }

  lemma FinalAt4_4()
    ensures Final()[4][4] == 5
  {
    assert AfterCone()[4][4] == 5;
    assert AfterCross()[4][4] == 5;
  }

  lemma FinalAt4_5()
    ensures Final()[4][5] == 8
  {
    assert AfterCone()[4][5] == 8;
    assert AfterCross()[4][5] == 8;
  }

  lemma FinalAt4_6()
    ensures Final()[4][6] == 5
  {
    assert AfterCone()[4][6] == 5;
    assert AfterCross()[4][6] == 5;
  }

  lemma FinalAt4_7()
    ensures Final()[4][7] == 5
  {
    assert AfterCone()[4][7] == 5;
    assert AfterCross()[4][7] == 5;
  }

  lemma FinalAt4_8()
    ensures Final()[4][8] == 0
  {
    assert AfterCone()[4][8] == 0;
    assert AfterCross()[4][8] == 0;
  }

  lemma FinalAt4_9()
    ensures Final()[4][9] == 0
  {
    assert AfterCone()[4][9] == 0;
    assert AfterCross()[4][9] == 0;
  }

  lemma FinalAt5_0()
    ensures Final()[5][0] == 5
  {
    assert AfterCone()[5][0] == 0;
    assert AfterCross()[5][0] == 5;
  }

  lemma FinalAt5_1()
    ensures Final()[5][1] == 5
  {
    assert AfterCone()[5][1] == 0;
    assert AfterCross()[5][1] == 5;
  }

  lemma FinalAt5_2()
    ensures Final()[5][2] == 5
  {
    assert AfterCone()[5][2] == 0;
    assert AfterCross()[5][2] == 5;
  }

  lemma FinalAt5_3()
    ensures Final()[5][3] == 5
  {
    assert AfterCone()[5][3] == 0;
    assert AfterCross()[5][3] == 5;
  }

  lemma FinalAt5_4()
    ensures Final()[5][4] == 5
  {
    assert AfterCone()[5][4] == 0;
    assert AfterCross()[5][4] == 5;
  }

  lemma FinalAt5_5()
    ensures Final()[5][5] == 5
  {
    assert AfterCone()[5][5] == 0;
    assert AfterCross()[5][5] == 5;
  }

  lemma FinalAt5_6()
    ensures Final()[5][6] == 5
  {
    assert AfterCone()[5][6] == 0;
    assert AfterCross()[5][6] == 0;
  }

  lemma FinalAt5_7()
    ensures Final()[5][7] == 5
  {
    assert AfterCone()[5][7] == 0;
    assert AfterCross()[5][7] == 0;
  }

  lemma FinalAt5_8()
    ensures Final()[5][8] == 5
  {
    assert AfterCone()[5][8] == 0;
    assert AfterCross()[5][8] == 0;
  }

  lemma FinalAt5_9()
    ensures Final()[5][9] == 0
  {
    assert AfterCone()[5][9] == 0;
    assert AfterCross()[5][9] == 0;
  }

  lemma FinalAt6_0()
    ensures Final()[6][0] == 0
  {
    assert AfterCone()[6][0] == 0;
    assert AfterCross()[6][0] == 0;
  }

  lemma FinalAt6_1()
    ensures Final()[6][1] == 0
  {
    assert AfterCone()[6][1] == 0;
    assert AfterCross()[6][1] == 0;
  }

  lemma FinalAt6_2()
    ensures Final()[6][2] == 5
  {
    assert AfterCone()[6][2] == 0;
    assert AfterCross()[6][2] == 5;
  }

  lemma FinalAt6_3()
    ensures Final()[6][3] == 0
  {
    assert AfterCone()[6][3] == 0;
    assert AfterCross()[6][3] == 0;
  }

  lemma FinalAt6_4()
    ensures Final()[6][4] == 0
  {
    assert AfterCone()[6][4] == 0;
    assert AfterCross()[6][4] == 0;
  }

  lemma FinalAt6_5()
    ensures Final()[6][5] == 5
  {
    assert AfterCone()[6][5] == 0;
    assert AfterCross()[6][5] == 0;
  }

  lemma FinalAt6_6()
    ensures Final()[6][6] == 5
  {
    assert AfterCone()[6][6] == 0;
    assert AfterCross()[6][6] == 0;
  }

  lemma FinalAt6_7()
    ensures Final()[6][7] == 8
  {
    assert AfterCone()[6][7] == 3;
    assert AfterCross()[6][7] == 3;
  }

  lemma FinalAt6_8()
    ensures Final()[6][8] == 5
  {
    assert AfterCone()[6][8] == 0;
    assert AfterCross()[6][8] == 0;
  }

  lemma FinalAt6_9()
    ensures Final()[6][9] == 5
  {
    assert AfterCone()[6][9] == 0;
    assert AfterCross()[6][9] == 0;
  }

  lemma FinalAt7_0()
    ensures Final()[7][0] == 0
  {
    assert AfterCone()[7][0] == 0;
    assert AfterCross()[7][0] == 0;
  }

  lemma FinalAt7_1()
    ensures Final()[7][1] == 0
  {
    assert AfterCone()[7][1] == 0;
    assert AfterCross()[7][1] == 0;
  }

  lemma FinalAt7_2()
    ensures Final()[7][2] == 5
  {
    assert AfterCone()[7][2] == 0;
    assert AfterCross()[7][2] == 5;
  }

  lemma FinalAt7_3()
    ensures Final()[7][3] == 0
  {
    assert AfterCone()[7][3] == 0;
    assert AfterCross()[7][3] == 0;
  }

  lemma FinalAt7_4()
    ensures Final()[7][4] == 5
  {
    assert AfterCone()[7][4] == 0;
    assert AfterCross()[7][4] == 0;
  }

  lemma FinalAt7_5()
    ensures Final()[7][5] == 5
  {
    assert AfterCone()[7][5] == 0;
    assert AfterCross()[7][5] == 0;
  }

  lemma FinalAt7_6()
    ensures Final()[7][6] == 5
  {
    assert AfterCone()[7][6] == 0;
    assert AfterCross()[7][6] == 0;
  }

  lemma FinalAt7_7()
    ensures Final()[7][7] == 8
  {
    assert AfterCone()[7][7] == 3;
    assert AfterCross()[7][7] == 3;
  }

  lemma FinalAt7_8()
    ensures Final()[7][8] == 5
  {
    assert AfterCone()[7][8] == 0;
    assert AfterCross()[7][8] == 0;
  }

  lemma FinalAt7_9()
    ensures Final()[7][9] == 5
  {
    assert AfterCone()[7][9] == 0;
    assert AfterCross()[7][9] == 0;
  }

  lemma FinalAt8_0()
    ensures Final()[8][0] == 0
  {
    assert AfterCone()[8][0] == 0;
    assert AfterCross()[8][0] == 0;
  }

  lemma FinalAt8_1()
    ensures Final()[8][1] == 0
  {
    assert AfterCone()[8][1] == 0;
    assert AfterCross()[8][1] == 0;
  }

  lemma FinalAt8_2()
    ensures Final()[8][2] == 5
  {
    assert AfterCone()[8][2] == 0;
    assert AfterCross()[8][2] == 5;
  }

  lemma FinalAt8_3()
    ensures Final()[8][3] == 0
  {
    assert AfterCone()[8][3] == 0;
    assert AfterCross()[8][3] == 0;
  }

  lemma FinalAt8_4()
    ensures Final()[8][4] == 0
  {
    assert AfterCone()[8][4] == 0;
    assert AfterCross()[8][4] == 0;
  }

  lemma FinalAt8_5()
    ensures Final()[8][5] == 5
  {
    assert AfterCone()[8][5] == 0;
    assert AfterCross()[8][5] == 0;
  }

  lemma FinalAt8_6()
    ensures Final()[8][6] == 5
  {
    assert AfterCone()[8][6] == 0;
    assert AfterCross()[8][6] == 0;
  }

  lemma FinalAt8_7()
    ensures Final()[8][7] == 5
  {
    assert AfterCone()[8][7] == 0;
    assert AfterCross()[8][7] == 0;
  }

  lemma FinalAt8_8()
    ensures Final()[8][8] == 5
  {
    assert AfterCone()[8][8] == 0;
    assert AfterCross()[8][8] == 0;
  }

  lemma FinalAt8_9()
    ensures Final()[8][9] == 5
  {
    assert AfterCone()[8][9] == 0;
    assert AfterCross()[8][9] == 0;
  }

  lemma FinalAt9_0()
    ensures Final()[9][0] == 0
  {
    assert AfterCone()[9][0] == 0;
    assert AfterCross()[9][0] == 0;
  }

  lemma FinalAt9_1()
    ensures Final()[9][1] == 0
  {
    assert AfterCone()[9][1] == 0;
    assert AfterCross()[9][1] == 0;
  }

  lemma FinalAt9_2()
    ensures Final()[9][2] == 0
  {
    assert AfterCone()[9][2] == 0;
    assert AfterCross()[9][2] == 0;
  }

  lemma FinalAt9_3()
    ensures Final()[9][3] == 0
  {
    assert AfterCone()[9][3] == 0;
    assert AfterCross()[9][3] == 0;
  }

  lemma FinalAt9_4()
    ensures Final()[9][4] == 0
  {
    assert AfterCone()[9][4] == 0;
    assert AfterCross()[9][4] == 0;
  }

  lemma FinalAt9_5()
    ensures Final()[9][5] == 0
  {
    assert AfterCone()[9][5] == 0;
    assert AfterCross()[9][5] == 0;
  }

  lemma FinalAt9_6()
    ensures Final()[9][6] == 5
  {
    assert AfterCone()[9][6] == 0;
    assert AfterCross()[9][6] == 0;
  }

  lemma FinalAt9_7()
    ensures Final()[9][7] == 5
  {
    assert AfterCone()[9][7] == 0;
    assert AfterCross()[9][7] == 0;
  }

  lemma FinalAt9_8()
    ensures Final()[9][8] == 5
  {
    assert AfterCone()[9][8] == 0;
    assert AfterCross()[9][8] == 0;
  }

  lemma FinalAt9_9()
    ensures Final()[9][9] == 0
  {
    assert AfterCone()[9][9] == 0;
    assert AfterCross()[9][9] == 0;
  }

  /** The final demonstration board is exactly GOLDEN. */
  lemma FinalIsGolden()
    ensures Final() == GOLDEN
  {
    FinalAt0_0(); FinalAt0_1(); FinalAt0_2(); FinalAt0_3(); FinalAt0_4(); FinalAt0_5(); FinalAt0_6(); FinalAt0_7(); FinalAt0_8(); FinalAt0_9();
    FinalAt1_0(); FinalAt1_1(); FinalAt1_2(); FinalAt1_3(); FinalAt1_4(); FinalAt1_5(); FinalAt1_6(); FinalAt1_7(); FinalAt1_8(); FinalAt1_9();
    FinalAt2_0(); FinalAt2_1(); FinalAt2_2(); FinalAt2_3(); FinalAt2_4(); FinalAt2_5(); FinalAt2_6(); FinalAt2_7(); FinalAt2_8(); FinalAt2_9();
    FinalAt3_0(); FinalAt3_1(); FinalAt3_2(); FinalAt3_3(); FinalAt3_4(); FinalAt3_5(); FinalAt3_6(); FinalAt3_7(); FinalAt3_8(); FinalAt3_9();
    FinalAt4_0(); FinalAt4_1(); FinalAt4_2(); FinalAt4_3(); FinalAt4_4(); FinalAt4_5(); FinalAt4_6(); FinalAt4_7(); FinalAt4_8(); FinalAt4_9();
    FinalAt5_0(); FinalAt5_1(); FinalAt5_2(); FinalAt5_3(); FinalAt5_4(); FinalAt5_5(); FinalAt5_6(); FinalAt5_7(); FinalAt5_8(); FinalAt5_9();
    FinalAt6_0(); FinalAt6_1(); FinalAt6_2(); FinalAt6_3(); FinalAt6_4(); FinalAt6_5(); FinalAt6_6(); FinalAt6_7(); FinalAt6_8(); FinalAt6_9();
    FinalAt7_0(); FinalAt7_1(); FinalAt7_2(); FinalAt7_3(); FinalAt7_4(); FinalAt7_5(); FinalAt7_6(); FinalAt7_7(); FinalAt7_8(); FinalAt7_9();
    FinalAt8_0(); FinalAt8_1(); FinalAt8_2(); FinalAt8_3(); FinalAt8_4(); FinalAt8_5(); FinalAt8_6(); FinalAt8_7(); FinalAt8_8(); FinalAt8_9();
    FinalAt9_0(); FinalAt9_1(); FinalAt9_2(); FinalAt9_3(); FinalAt9_4(); FinalAt9_5(); FinalAt9_6(); FinalAt9_7(); FinalAt9_8(); FinalAt9_9();
    Assemble(Final());
  }
}
