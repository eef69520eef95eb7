/**
 * Whole games played click by click from the state the game scene starts in:
 * a won game, a drawn game, a repeated click and clicks after the end.
 */
module Scenarios {
  import opened Rules

  /** g and h agree cell by cell, each cell named. */
  predicate SameCells(g: Grid, h: Grid)
    requires IsGrid(g) && IsGrid(h)
  {
    g[0][0] == h[0][0] && g[0][1] == h[0][1] && g[0][2] == h[0][2]
    && g[1][0] == h[1][0] && g[1][1] == h[1][1] && g[1][2] == h[1][2]
    && g[2][0] == h[2][0] && g[2][1] == h[2][1] && g[2][2] == h[2][2]
  }

  lemma {:induction false} SameCellsEqual(g: Grid, h: Grid)
    requires IsGrid(g) && IsGrid(h) && SameCells(g, h)
    ensures g == h
  {
    forall line, cell | InRange(line, cell)
      ensures g[line][cell] == h[line][cell]
    {
      assert line == 0 || line == 1 || line == 2;
      assert cell == 0 || cell == 1 || cell == 2;
    }
    GridsEqual(g, h);
  }

  /**
   * p has no full row, column or diagonal on g, as shown by one cell of each
   * line that is not p: column r0 of row 0, row c0 of column 0, and so on,
   * d1 on the main diagonal and d2 on the anti-diagonal.
   */
  lemma {:induction false} NoLineWhenBlocked(g: Grid, p: Mark, r0: int, r1: int, r2: int, c0: int, c1: int, c2: int, d1: int, d2: int)
    requires IsGrid(g)
    requires 0 <= r0 < N && 0 <= r1 < N && 0 <= r2 < N && 0 <= c0 < N && 0 <= c1 < N && 0 <= c2 < N
    requires 0 <= d1 < N && 0 <= d2 < N
    requires g[0][r0] != p && g[1][r1] != p && g[2][r2] != p
    requires g[c0][0] != p && g[c1][1] != p && g[c2][2] != p
    requires g[d1][d1] != p && g[d2][N - d2 - 1] != p
    ensures !HasLine(g, p) && !ScanFindsWin(g, p)
  {
    forall k | 0 <= k < N
      ensures !RowFull(g, k, p) && !ColumnFull(g, k, p)
    {
      if k == 0 {
        assert g[0][r0] != p && g[c0][0] != p;
      } else if k == 1 {
        assert g[1][r1] != p && g[c1][1] != p;
      } else {
        assert g[2][r2] != p && g[c2][2] != p;
      }
    }
    assert !Diagonal1Full(g, p) by { assert g[d1][d1] != p; }
    assert !Diagonal2Full(g, p) by { assert g[d2][N - d2 - 1] != p; }
    ScanFindsWinIffHasLine(g, p);
  }

  /**
   * An accepted click whose new board `next` completes no line (blockers as
   * in NoLineWhenBlocked) and still has the EMPTY cell (e1, e2) passes the
   * turn.
   */
  lemma {:induction false} QuietMove(s: Session, line: int, cell: int, next: Grid,
                                     r0: int, r1: int, r2: int, c0: int, c1: int, c2: int, d1: int, d2: int, e1: int, e2: int)
    requires ValidSession(s) && InRange(line, cell) && InRange(e1, e2)
    requires s.status == Running && s.board[line][cell] == Empty
    requires IsGrid(next) && SameCells(Place(s.board, line, cell, s.player), next)
    requires 0 <= r0 < N && 0 <= r1 < N && 0 <= r2 < N && 0 <= c0 < N && 0 <= c1 < N && 0 <= c2 < N
    requires 0 <= d1 < N && 0 <= d2 < N
    requires next[0][r0] != s.player && next[1][r1] != s.player && next[2][r2] != s.player
    requires next[c0][0] != s.player && next[c1][1] != s.player && next[c2][2] != s.player
    requires next[d1][d1] != s.player && next[d2][N - d2 - 1] != s.player
    requires next[e1][e2] == Empty
    ensures Move(s, line, cell) == (Session(next, Running, Other(s.player)), NoOutcome)
  {
    SameCellsEqual(Place(s.board, line, cell, s.player), next);
    NoLineWhenBlocked(next, s.player, r0, r1, r2, c0, c1, c2, d1, d2);
    assert !Full(next) by { assert next[e1][e2] == Empty; }
  }

  /** The empty cell, short for the grids written out below. */
  const E: Mark := Empty

  /** The state the scene starts in, written out. */
  lemma FreshBoard()
    ensures Fresh() == Session([[E, E, E], [E, E, E], [E, E, E]], Running, X)
  {
    SameCellsEqual(Fresh().board, [[E, E, E], [E, E, E], [E, E, E]]);
  }

  /** Click 1 of the won game. */
  lemma RowWinStep1()
    ensures Move(Session([[E, E, E], [E, E, E], [E, E, E]], Running, X), 0, 0) == (Session([[X, E, E], [E, E, E], [E, E, E]], Running, O), NoOutcome)
  {
    QuietMove(Session([[E, E, E], [E, E, E], [E, E, E]], Running, X), 0, 0,
              [[X, E, E], [E, E, E], [E, E, E]], 1, 0, 0, 1, 0, 0, 1, 0, 2, 2);
  }

  /** Click 2 of the won game. */
  lemma RowWinStep2()
    ensures Move(Session([[X, E, E], [E, E, E], [E, E, E]], Running, O), 1, 1) == (Session([[X, E, E], [E, O, E], [E, E, E]], Running, X), NoOutcome)
  {
    QuietMove(Session([[X, E, E], [E, E, E], [E, E, E]], Running, O), 1, 1,
              [[X, E, E], [E, O, E], [E, E, E]], 0, 0, 0, 0, 0, 0, 0, 0, 2, 2);
  }

  /** Click 3 of the won game. */
  lemma RowWinStep3()
    ensures Move(Session([[X, E, E], [E, O, E], [E, E, E]], Running, X), 0, 1) == (Session([[X, X, E], [E, O, E], [E, E, E]], Running, O), NoOutcome)
  {
    QuietMove(Session([[X, E, E], [E, O, E], [E, E, E]], Running, X), 0, 1,
              [[X, X, E], [E, O, E], [E, E, E]], 2, 0, 0, 1, 1, 0, 1, 0, 2, 2);
  }

  /** Click 4 of the won game. */
  lemma RowWinStep4()
    ensures Move(Session([[X, X, E], [E, O, E], [E, E, E]], Running, O), 1, 0) == (Session([[X, X, E], [O, O, E], [E, E, E]], Running, X), NoOutcome)
  {
    QuietMove(Session([[X, X, E], [E, O, E], [E, E, E]], Running, O), 1, 0,
              [[X, X, E], [O, O, E], [E, E, E]], 0, 2, 0, 0, 0, 0, 0, 0, 2, 2);
  }

  /** Click 2 of the drawn game. */
  lemma DrawStep2()
    ensures Move(Session([[X, E, E], [E, E, E], [E, E, E]], Running, O), 0, 1) == (Session([[X, O, E], [E, E, E], [E, E, E]], Running, X), NoOutcome)
  {
    QuietMove(Session([[X, E, E], [E, E, E], [E, E, E]], Running, O), 0, 1,
              [[X, O, E], [E, E, E], [E, E, E]], 0, 0, 0, 0, 1, 0, 0, 0, 2, 2);
  }

  /** Click 3 of the drawn game. */
  lemma DrawStep3()
    ensures Move(Session([[X, O, E], [E, E, E], [E, E, E]], Running, X), 0, 2) == (Session([[X, O, X], [E, E, E], [E, E, E]], Running, O), NoOutcome)
  {
    QuietMove(Session([[X, O, E], [E, E, E], [E, E, E]], Running, X), 0, 2,
              [[X, O, X], [E, E, E], [E, E, E]], 1, 0, 0, 1, 0, 1, 1, 1, 2, 2);
  }

  /** Click 4 of the drawn game. */
  lemma DrawStep4()
    ensures Move(Session([[X, O, X], [E, E, E], [E, E, E]], Running, O), 1, 1) == (Session([[X, O, X], [E, O, E], [E, E, E]], Running, X), NoOutcome)
  {
    QuietMove(Session([[X, O, X], [E, E, E], [E, E, E]], Running, O), 1, 1,
              [[X, O, X], [E, O, E], [E, E, E]], 0, 0, 0, 0, 2, 0, 0, 0, 2, 2);
  }

  /** Click 5 of the drawn game. */
  lemma DrawStep5()
    ensures Move(Session([[X, O, X], [E, O, E], [E, E, E]], Running, X), 1, 0) == (Session([[X, O, X], [X, O, E], [E, E, E]], Running, O), NoOutcome)
  {
    QuietMove(Session([[X, O, X], [E, O, E], [E, E, E]], Running, X), 1, 0,
              [[X, O, X], [X, O, E], [E, E, E]], 1, 1, 0, 2, 0, 1, 1, 1, 2, 2);
  }

  /** Click 6 of the drawn game. */
  lemma DrawStep6()
    ensures Move(Session([[X, O, X], [X, O, E], [E, E, E]], Running, O), 1, 2) == (Session([[X, O, X], [X, O, O], [E, E, E]], Running, X), NoOutcome)
  {
    QuietMove(Session([[X, O, X], [X, O, E], [E, E, E]], Running, O), 1, 2,
              [[X, O, X], [X, O, O], [E, E, E]], 0, 0, 0, 0, 2, 0, 0, 0, 2, 2);
  }

  /** Click 7 of the drawn game. */
  lemma DrawStep7()
    ensures Move(Session([[X, O, X], [X, O, O], [E, E, E]], Running, X), 2, 1) == (Session([[X, O, X], [X, O, O], [E, X, E]], Running, O), NoOutcome)
  {
    QuietMove(Session([[X, O, X], [X, O, O], [E, E, E]], Running, X), 2, 1,
              [[X, O, X], [X, O, O], [E, X, E]], 1, 1, 0, 2, 0, 1, 1, 1, 2, 2);
  }

  /** Click 8 of the drawn game. */
  lemma DrawStep8()
    ensures Move(Session([[X, O, X], [X, O, O], [E, X, E]], Running, O), 2, 0) == (Session([[X, O, X], [X, O, O], [O, X, E]], Running, X), NoOutcome)
  {
    QuietMove(Session([[X, O, X], [X, O, O], [E, X, E]], Running, O), 2, 0,
              [[X, O, X], [X, O, O], [O, X, E]], 0, 0, 1, 0, 2, 0, 0, 0, 2, 2);
  }

  /** Click 5 of the won game completes row 0 for X. */
  lemma RowWinStep5()
    ensures Move(Session([[X, X, E], [O, O, E], [E, E, E]], Running, X), 0, 2) == (Session([[X, X, X], [O, O, E], [E, E, E]], Finished, X), Win(X))
  {
    SameCellsEqual(Place([[X, X, E], [O, O, E], [E, E, E]], 0, 2, X), [[X, X, X], [O, O, E], [E, E, E]]);
    assert RowFull([[X, X, X], [O, O, E], [E, E, E]], 0, X);
    WinTakesPrecedence(Session([[X, X, E], [O, O, E], [E, E, E]], Running, X), 0, 2);
  }

  /** Click 9 of the drawn game fills the board without a line. */
  lemma DrawStep9()
    ensures Move(Session([[X, O, X], [X, O, O], [O, X, E]], Running, X), 2, 2) == (Session([[X, O, X], [X, O, O], [O, X, X]], Finished, X), Draw)
  {
    SameCellsEqual(Place([[X, O, X], [X, O, O], [O, X, E]], 2, 2, X), [[X, O, X], [X, O, O], [O, X, X]]);
    NoLineWhenBlocked([[X, O, X], [X, O, O], [O, X, X]], X, 1, 1, 0, 2, 0, 1, 1, 1);
    assert Full([[X, O, X], [X, O, O], [O, X, X]]) by {
      forall line, cell | 0 <= line < N && 0 <= cell < N
        ensures [[X, O, X], [X, O, O], [O, X, X]][line][cell] != Empty
      {
        assert line == 0 || line == 1 || line == 2;
        assert cell == 0 || cell == 1 || cell == 2;
      }
    }
    DrawWhenFullWithoutLine(Session([[X, O, X], [X, O, O], [O, X, E]], Running, X), 2, 2);
  }

  /**
   * X plays (0,0), (0,1), (0,2) while O plays (1,1), (1,0): the first four
   * clicks pass the turn, and the fifth fills row 0 with X, reports a win of
   * X and finishes the game with X still the current player.
   */
  lemma ScenarioRowWin()
    ensures Move(Fresh(), 0, 0) == (Session([[X, E, E], [E, E, E], [E, E, E]], Running, O), NoOutcome)
    ensures Move(Session([[X, E, E], [E, E, E], [E, E, E]], Running, O), 1, 1)
         == (Session([[X, E, E], [E, O, E], [E, E, E]], Running, X), NoOutcome)
    ensures Move(Session([[X, E, E], [E, O, E], [E, E, E]], Running, X), 0, 1)
         == (Session([[X, X, E], [E, O, E], [E, E, E]], Running, O), NoOutcome)
    ensures Move(Session([[X, X, E], [E, O, E], [E, E, E]], Running, O), 1, 0)
         == (Session([[X, X, E], [O, O, E], [E, E, E]], Running, X), NoOutcome)
    ensures Move(Session([[X, X, E], [O, O, E], [E, E, E]], Running, X), 0, 2)
         == (Session([[X, X, X], [O, O, E], [E, E, E]], Finished, X), Win(X))
  {
    FreshBoard();
    RowWinStep1();
    RowWinStep2();
    RowWinStep3();
    RowWinStep4();
    RowWinStep5();
  }

  /**
   * Nine clicks that fill the board as
   *   X O X
   *   X O O
   *   O X X
   * complete no line for either player: the first eight pass the turn and
   * the last one reports a draw and finishes the game.
   */
  lemma ScenarioDraw()
    ensures Move(Fresh(), 0, 0) == (Session([[X, E, E], [E, E, E], [E, E, E]], Running, O), NoOutcome)
    ensures Move(Session([[X, E, E], [E, E, E], [E, E, E]], Running, O), 0, 1)
         == (Session([[X, O, E], [E, E, E], [E, E, E]], Running, X), NoOutcome)
    ensures Move(Session([[X, O, E], [E, E, E], [E, E, E]], Running, X), 0, 2)
         == (Session([[X, O, X], [E, E, E], [E, E, E]], Running, O), NoOutcome)
    ensures Move(Session([[X, O, X], [E, E, E], [E, E, E]], Running, O), 1, 1)
         == (Session([[X, O, X], [E, O, E], [E, E, E]], Running, X), NoOutcome)
    ensures Move(Session([[X, O, X], [E, O, E], [E, E, E]], Running, X), 1, 0)
         == (Session([[X, O, X], [X, O, E], [E, E, E]], Running, O), NoOutcome)
    ensures Move(Session([[X, O, X], [X, O, E], [E, E, E]], Running, O), 1, 2)
         == (Session([[X, O, X], [X, O, O], [E, E, E]], Running, X), NoOutcome)
    ensures Move(Session([[X, O, X], [X, O, O], [E, E, E]], Running, X), 2, 1)
         == (Session([[X, O, X], [X, O, O], [E, X, E]], Running, O), NoOutcome)
    ensures Move(Session([[X, O, X], [X, O, O], [E, X, E]], Running, O), 2, 0)
         == (Session([[X, O, X], [X, O, O], [O, X, E]], Running, X), NoOutcome)
    ensures Move(Session([[X, O, X], [X, O, O], [O, X, E]], Running, X), 2, 2)
         == (Session([[X, O, X], [X, O, O], [O, X, X]], Finished, X), Draw)
  {
    FreshBoard();
    RowWinStep1();
    DrawStep2();
    DrawStep3();
    DrawStep4();
    DrawStep5();
    DrawStep6();
    DrawStep7();
    DrawStep8();
    DrawStep9();
  }

  /**
   * Clicking (2,2) twice on a fresh board leaves one mark of X there and O
   * to play: the second click is ignored.
   */
  lemma ScenarioRepeatedClick()
    ensures Replay(Fresh(), [(2, 2), (2, 2)]) == Session([[E, E, E], [E, E, E], [E, E, X]], Running, O)
  {
    FreshBoard();
    QuietMove(Session([[E, E, E], [E, E, E], [E, E, E]], Running, X), 2, 2,
              [[E, E, E], [E, E, E], [E, E, X]], 0, 0, 0, 0, 0, 0, 0, 0, 0, 0);
    MoveOnOccupiedIsNoOp(Session([[E, E, E], [E, E, E], [E, E, X]], Running, O), 2, 2);
  }

  /**
   * After the win of ScenarioRowWin, any further clicks change nothing: the
   * board, the player and the status stay as the win left them.
   */
  lemma ScenarioAfterWin(clicks: seq<(int, int)>)
    requires forall k :: 0 <= k < |clicks| ==> InRange(clicks[k].0, clicks[k].1)
    ensures Replay(Session([[X, X, X], [O, O, E], [E, E, E]], Finished, X), clicks)
         == Session([[X, X, X], [O, O, E], [E, E, E]], Finished, X)
  {
    FinishedIsFinal(Session([[X, X, X], [O, O, E], [E, E, E]], Finished, X), clicks);
  }

}
