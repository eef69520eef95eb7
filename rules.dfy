/**
 * The rules of the tic-tac-toe session as values: the board, the session
 * fields, the move transition and the win/draw predicates. The imperative
 * game in module Play is proved to follow these definitions.
 */
module Rules {

  /** ROWSXCELLS: the side of the square board. */
  const N: nat := 3

  /** The content of a cell: "" (EMPTY), "X" (PLAYER_X) or "O" (PLAYER_O). */
  datatype Mark = Empty | X | O

  datatype Status = Running | Finished

  /** What a move reports to the presentation layer (the showMessage call). */
  datatype Outcome = NoOutcome | Win(winner: Mark) | Draw

  /** boardState, row by row: Grid[line][cell]. */
  type Grid = seq<seq<Mark>>

  predicate IsGrid(g: Grid) {
    |g| == N && forall line :: 0 <= line < N ==> |g[line]| == N
  }

  predicate InRange(line: int, cell: int) {
    0 <= line < N && 0 <= cell < N
  }

  /** The board as makeBoard leaves it: every cell EMPTY. */
  function EmptyGrid(): (g: Grid)
    ensures IsGrid(g)
    ensures forall line, cell :: InRange(line, cell) ==> g[line][cell] == Empty
  {
    seq(N, _ => seq(N, _ => Empty))
  }

  /** Two grids with the same cells are the same grid. */
  lemma GridsEqual(g: Grid, h: Grid)
    requires IsGrid(g) && IsGrid(h)
    requires forall line, cell :: InRange(line, cell) ==> g[line][cell] == h[line][cell]
    ensures g == h
  {
    forall line | 0 <= line < N
      ensures g[line] == h[line]
    {
      assert forall cell :: 0 <= cell < N ==> g[line][cell] == h[line][cell];
    }
  }

  /** The write boardState[line][cell] = p. */
  function Place(g: Grid, line: int, cell: int, p: Mark): (r: Grid)
    requires IsGrid(g) && InRange(line, cell)
    ensures IsGrid(r)
    ensures r[line][cell] == p
    ensures forall i, j :: InRange(i, j) && (i != line || j != cell) ==> r[i][j] == g[i][j]
  {
    g[line := g[line][cell := p]]
  }

  // ---------------------------------------------------------------------
  // Lines of the board

  /** What checkLine(line) checks: the whole row is p. */
  predicate RowFull(g: Grid, line: int, p: Mark)
    requires IsGrid(g) && 0 <= line < N
  {
    forall cell :: 0 <= cell < N ==> g[line][cell] == p
  }

  /** What checkColumn(column) checks: the whole column is p. */
  predicate ColumnFull(g: Grid, column: int, p: Mark)
    requires IsGrid(g) && 0 <= column < N
  {
    forall line :: 0 <= line < N ==> g[line][column] == p
  }

  /** What checkDiagonal1 checks: the main diagonal is p. */
  predicate Diagonal1Full(g: Grid, p: Mark)
    requires IsGrid(g)
  {
    forall line :: 0 <= line < N ==> g[line][line] == p
  }

  /** What checkDiagonal2 checks: the anti-diagonal is p. */
  predicate Diagonal2Full(g: Grid, p: Mark)
    requires IsGrid(g)
  {
    forall line :: 0 <= line < N ==> g[line][N - line - 1] == p
  }

  /** The meaning of a win: some row, some column or a diagonal is entirely p. */
  predicate HasLine(g: Grid, p: Mark)
    requires IsGrid(g)
  {
    (exists line :: 0 <= line < N && RowFull(g, line, p))
    || (exists column :: 0 <= column < N && ColumnFull(g, column, p))
    || Diagonal1Full(g, p)
    || Diagonal2Full(g, p)
  }

  /**
   * The win as checkWin finds it: some cell holding p whose row or column is
   * full of p, or for which one of the two diagonals is full of p (both
   * diagonals are checked for every such cell, on a diagonal or not).
   */
  predicate ScanFindsWin(g: Grid, p: Mark)
    requires IsGrid(g)
  {
    exists line, cell :: 0 <= line < N && 0 <= cell < N && g[line][cell] == p && WinsThrough(g, line, cell, p)
  }

  /** The check checkWin makes at one cell. */
  predicate WinsThrough(g: Grid, line: int, cell: int, p: Mark)
    requires IsGrid(g) && InRange(line, cell)
  {
    RowFull(g, line, p) || ColumnFull(g, cell, p) || Diagonal1Full(g, p) || Diagonal2Full(g, p)
  }

  /**
   * The per-cell scan neither misses a line nor reports one that is not
   * there: checking both diagonals at every cell gives no false positive,
   * since a full diagonal always holds a cell of p at which the scan stops.
   */
  lemma {:induction false} ScanFindsWinIffHasLine(g: Grid, p: Mark)
    requires IsGrid(g)
    ensures ScanFindsWin(g, p) <==> HasLine(g, p)
  {
    if ScanFindsWin(g, p) {
      var line, cell :| 0 <= line < N && 0 <= cell < N && g[line][cell] == p && WinsThrough(g, line, cell, p);
      if RowFull(g, line, p) {
        assert 0 <= line < N && RowFull(g, line, p);
      } else if ColumnFull(g, cell, p) {
        assert 0 <= cell < N && ColumnFull(g, cell, p);
      }
    }
    if HasLine(g, p) {
      if line :| 0 <= line < N && RowFull(g, line, p) {
        assert g[line][0] == p && WinsThrough(g, line, 0, p);
      } else if column :| 0 <= column < N && ColumnFull(g, column, p) {
        assert g[0][column] == p && WinsThrough(g, 0, column, p);
      } else if Diagonal1Full(g, p) {
        assert g[0][0] == p && WinsThrough(g, 0, 0, p);
      } else {
        assert g[0][N - 1] == p && WinsThrough(g, 0, N - 1, p);
      }
    }
  }

  /**
   * checkWin's scan has looked at the first `cell` cells of row `line`
   * without stopping: none of them holds p with a full line through it.
   */
  predicate RowScanMisses(g: Grid, p: Mark, line: int, cell: int)
    requires IsGrid(g) && 0 <= line < N && 0 <= cell <= N
    decreases cell
  {
    cell == 0
    || (RowScanMisses(g, p, line, cell - 1)
        && !(g[line][cell - 1] == p && WinsThrough(g, line, cell - 1, p)))
  }

  /** checkWin's scan has gone through the first `line` rows without stopping. */
  predicate ScanMisses(g: Grid, p: Mark, line: int)
    requires IsGrid(g) && 0 <= line <= N
    decreases line
  {
    line == 0 || (ScanMisses(g, p, line - 1) && RowScanMisses(g, p, line - 1, N))
  }

  lemma {:induction false} RowScanMissesAll(g: Grid, p: Mark, line: int, cell: int)
    requires IsGrid(g) && 0 <= line < N && 0 <= cell <= N
    ensures RowScanMisses(g, p, line, cell) <==>
              forall j :: 0 <= j < cell ==> !(g[line][j] == p && WinsThrough(g, line, j, p))
    decreases cell
  {
    if cell > 0 {
      RowScanMissesAll(g, p, line, cell - 1);
    }
  }

  lemma {:induction false} ScanMissesAll(g: Grid, p: Mark, line: int)
    requires IsGrid(g) && 0 <= line <= N
    ensures ScanMisses(g, p, line) <==>
              forall i, j :: 0 <= i < line && 0 <= j < N ==> !(g[i][j] == p && WinsThrough(g, i, j, p))
    decreases line
  {
    if line > 0 {
      ScanMissesAll(g, p, line - 1);
      RowScanMissesAll(g, p, line - 1, N);
    }
  }

  /** A scan that went through every row without stopping found no win. */
  lemma ScanMissesIffNoWin(g: Grid, p: Mark)
    requires IsGrid(g)
    ensures ScanMisses(g, p, N) <==> !ScanFindsWin(g, p)
  {
    ScanMissesAll(g, p, N);
  }

  /** What checkDraw checks: no cell is EMPTY. */
  predicate Full(g: Grid)
    requires IsGrid(g)
  {
    forall line, cell :: 0 <= line < N && 0 <= cell < N ==> g[line][cell] != Empty
  }

  // ---------------------------------------------------------------------
  // The session and its move transition

  /** The module globals gameStatus and currentPlayer, with boardState. */
  datatype Session = Session(board: Grid, status: Status, player: Mark)

  predicate ValidSession(s: Session) {
    IsGrid(s.board) && s.player != Empty
  }

  /** The state after scene setup: makeBoard, then resetGame. */
  function Fresh(): (s: Session)
    ensures ValidSession(s)
    ensures s.status == Running && s.player == X
    ensures forall line, cell :: InRange(line, cell) ==> s.board[line][cell] == Empty
  {
    Session(EmptyGrid(), Running, X)
  }

  /** nextPlayer: X is followed by O, anything else by X. */
  function Other(p: Mark): (r: Mark)
    ensures r != Empty
    ensures p != Empty ==> r != p
  {
    if p == X then O else X
  }

  lemma OtherAlternates(p: Mark)
    requires p != Empty
    ensures Other(Other(p)) == p
  {
  }

  /**
   * makeMove(line, cell): ignored while FINISHED or on an occupied cell;
   * otherwise the current player's mark is written, then a win is checked,
   * then a draw, and otherwise the turn passes.
   */
  function Move(s: Session, line: int, cell: int): (r: (Session, Outcome))
    requires ValidSession(s) && InRange(line, cell)
    ensures ValidSession(r.0)
  {
    if s.status == Finished then (s, NoOutcome)
    else if s.board[line][cell] != Empty then (s, NoOutcome)
    else
      var g := Place(s.board, line, cell, s.player);
      if ScanFindsWin(g, s.player) then (Session(g, Finished, s.player), Win(s.player))
      else if Full(g) then (Session(g, Finished, s.player), Draw)
      else (Session(g, Running, Other(s.player)), NoOutcome)
  }

  /** A sequence of clicks, each handled by makeMove. */
  function Replay(s: Session, clicks: seq<(int, int)>): (r: Session)
    requires ValidSession(s)
    requires forall k :: 0 <= k < |clicks| ==> InRange(clicks[k].0, clicks[k].1)
    ensures ValidSession(r)
    decreases |clicks|
  {
    if clicks == [] then s
    else
      Replay(Move(s, clicks[0].0, clicks[0].1).0, clicks[1..])
  }

  // ---------------------------------------------------------------------
  // Properties of a move

  /** A click after the game has finished changes nothing and reports nothing. */
  lemma MoveWhenFinishedIsNoOp(s: Session, line: int, cell: int)
    requires ValidSession(s) && InRange(line, cell)
    requires s.status == Finished
    ensures Move(s, line, cell) == (s, NoOutcome)
  {
  }

  /** A click on an occupied cell changes nothing and reports nothing. */
  lemma MoveOnOccupiedIsNoOp(s: Session, line: int, cell: int)
    requires ValidSession(s) && InRange(line, cell)
    requires s.board[line][cell] != Empty
    ensures Move(s, line, cell) == (s, NoOutcome)
  {
  }

  /** A marked cell is never overwritten, by a click on any cell. */
  lemma MoveNeverOverwrites(s: Session, line: int, cell: int, i: int, j: int)
    requires ValidSession(s) && InRange(line, cell) && InRange(i, j)
    requires s.board[i][j] != Empty
    ensures Move(s, line, cell).0.board[i][j] == s.board[i][j]
  {
  }

  /** Clicking the same cell twice leaves the state of clicking it once. */
  lemma {:induction false} MoveTwiceSameAsOnce(s: Session, line: int, cell: int)
    requires ValidSession(s) && InRange(line, cell)
    ensures Move(Move(s, line, cell).0, line, cell) == (Move(s, line, cell).0, NoOutcome)
  {
    var t := Move(s, line, cell).0;
    if s.status == Running && s.board[line][cell] == Empty {
      assert t.board[line][cell] == s.player;
      MoveOnOccupiedIsNoOp(t, line, cell);
    } else {
      assert t == s;
    }
  }

  /**
   * A click on an EMPTY cell while RUNNING writes the pre-move player into
   * exactly that cell; every other cell keeps its mark.
   */
  lemma MoveWritesOneCell(s: Session, line: int, cell: int)
    requires ValidSession(s) && InRange(line, cell)
    requires s.status == Running && s.board[line][cell] == Empty
    ensures Move(s, line, cell).0.board[line][cell] == s.player
    ensures forall i, j :: InRange(i, j) && (i != line || j != cell) ==>
              Move(s, line, cell).0.board[i][j] == s.board[i][j]
  {
  }

  /**
   * A move that completes a line finishes the game as a win of the player who
   * made it, who stays the current player, even when it also fills the board.
   */
  lemma WinTakesPrecedence(s: Session, line: int, cell: int)
    requires ValidSession(s) && InRange(line, cell)
    requires s.status == Running && s.board[line][cell] == Empty
    requires HasLine(Place(s.board, line, cell, s.player), s.player)
    ensures Move(s, line, cell) == (Session(Place(s.board, line, cell, s.player), Finished, s.player), Win(s.player))
  {
    ScanFindsWinIffHasLine(Place(s.board, line, cell, s.player), s.player);
  }

  /** A move that completes no line but fills the board finishes as a draw. */
  lemma DrawWhenFullWithoutLine(s: Session, line: int, cell: int)
    requires ValidSession(s) && InRange(line, cell)
    requires s.status == Running && s.board[line][cell] == Empty
    requires !HasLine(Place(s.board, line, cell, s.player), s.player)
    requires Full(Place(s.board, line, cell, s.player))
    ensures Move(s, line, cell) == (Session(Place(s.board, line, cell, s.player), Finished, s.player), Draw)
  {
    ScanFindsWinIffHasLine(Place(s.board, line, cell, s.player), s.player);
  }

  /** Any other accepted move passes the turn and keeps the game running. */
  lemma TurnPasses(s: Session, line: int, cell: int)
    requires ValidSession(s) && InRange(line, cell)
    requires s.status == Running && s.board[line][cell] == Empty
    requires !HasLine(Place(s.board, line, cell, s.player), s.player)
    requires !Full(Place(s.board, line, cell, s.player))
    ensures Move(s, line, cell).0.status == Running
    ensures Move(s, line, cell).0.player == Other(s.player)
    ensures Move(s, line, cell).0.player != s.player
    ensures Move(s, line, cell).1 == NoOutcome
  {
    ScanFindsWinIffHasLine(Place(s.board, line, cell, s.player), s.player);
  }

  /**
   * Exactly one outcome is reported per game: a move reports Win or Draw
   * precisely when it takes the session from RUNNING to FINISHED, a Win
   * names the player who completed a line, and a Draw leaves a full board.
   */
  lemma {:induction false} OutcomeMatchesTransition(s: Session, line: int, cell: int)
    requires ValidSession(s) && InRange(line, cell)
    ensures var (t, outcome) := Move(s, line, cell);
      (outcome != NoOutcome <==> s.status == Running && t.status == Finished)
      && (outcome.Win? ==> outcome.winner == s.player == t.player && HasLine(t.board, s.player))
      && (outcome.Draw? ==> Full(t.board) && !HasLine(t.board, s.player))
  {
    if s.status == Running && s.board[line][cell] == Empty {
      ScanFindsWinIffHasLine(Place(s.board, line, cell, s.player), s.player);
    }
  }

  /** gameStatus only goes from RUNNING to FINISHED, never back. */
  lemma {:induction false} FinishedIsFinal(s: Session, clicks: seq<(int, int)>)
    requires ValidSession(s)
    requires forall k :: 0 <= k < |clicks| ==> InRange(clicks[k].0, clicks[k].1)
    requires s.status == Finished
    ensures Replay(s, clicks) == s
    decreases |clicks|
  {
    if clicks != [] {
      FinishedIsFinal(s, clicks[1..]);
    }
  }
}
