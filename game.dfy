/**
 * The game scene's session state, updated in place: boardState as a 3x3
 * array, gameStatus and currentPlayer as fields, and the routines of the
 * scene that read and write them.
 */
module Play {
  import opened Rules

  /** makeBoard: a fresh N x N board with every cell EMPTY, filled row by row. */
  method MakeBoard() returns (b: array2<Mark>)
    ensures fresh(b)
    ensures b.Length0 == N && b.Length1 == N
    ensures forall line, cell :: InRange(line, cell) ==> b[line, cell] == Empty
  {
    b := new Mark[N, N];
    for line := 0 to N
      invariant forall i, j :: 0 <= i < line && 0 <= j < N ==> b[i, j] == Empty
    {
      for cell := 0 to N
        invariant forall i, j :: 0 <= i < line && 0 <= j < N ==> b[i, j] == Empty
        invariant forall j :: 0 <= j < cell ==> b[line, j] == Empty
      {
        b[line, cell] := Empty;
      }
    }
  }

  class Game {
    /** boardState */
    var board: array2<Mark>
    /** gameStatus */
    var status: Status
    /** currentPlayer */
    var player: Mark

    /** boardState as a value, kept equal to the array by every method. */
    ghost var cells: Grid

    /** The board is N x N and cells mirrors it. */
    ghost predicate Consistent()
      reads this`board, this`cells, board
    {
      board.Length0 == N && board.Length1 == N
      && IsGrid(cells)
      && forall line, cell :: InRange(line, cell) ==> cells[line][cell] == board[line, cell]
    }

    ghost predicate Valid()
      reads this`board, this`cells, this`player, board
    {
      Consistent() && player != Empty
    }

    /** The whole session as a value. */
    ghost function Snapshot(): (s: Session)
      reads this
      requires IsGrid(cells) && player != Empty
      ensures ValidSession(s)
    {
      Session(cells, status, player)
    }

    /**
     * Entering the game scene: the globals start RUNNING with X to play,
     * makeBoard builds an empty board, and resetGame sets the globals again.
     * A restart re-enters the scene, so it is a fresh Game.
     */
    constructor ()
      ensures Valid() && fresh(board)
      ensures Snapshot() == Fresh()
    {
      var b := MakeBoard();
      status := Running;
      player := X;
      board := b;
      cells := EmptyGrid();
      new;
      ResetGame();
    }

    /** resetGame: RUNNING, X to play; the board is left alone. */
    method ResetGame()
      requires Consistent()
      modifies this`status, this`player
      ensures Valid()
      ensures status == Running && player == X
    {
      status := Running;
      player := X;
    }

    /** nextPlayer: the turn passes from X to O and from O to X. */
    method NextPlayer()
      requires Valid()
      modifies this`player
      ensures Valid()
      ensures player == Other(old(player)) && player != old(player)
    {
      player := if player == X then O else X;
    }

    /** checkLine(line): the whole row is the current player's. */
    method CheckLine(line: int) returns (r: bool)
      requires Valid() && 0 <= line < N
      ensures r == RowFull(cells, line, player)
    {
      for cell := 0 to N
        invariant forall j :: 0 <= j < cell ==> board[line, j] == player
      {
        if board[line, cell] != player {
          return false;
        }
      }
      return true;
    }

    /** checkColumn(column): the whole column is the current player's. */
    method CheckColumn(column: int) returns (r: bool)
      requires Valid() && 0 <= column < N
      ensures r == ColumnFull(cells, column, player)
    {
      for line := 0 to N
        invariant forall i :: 0 <= i < line ==> board[i, column] == player
      {
        if board[line, column] != player {
          return false;
        }
      }
      return true;
    }

    /** checkDiagonal1: the main diagonal is the current player's. */
    method CheckDiagonal1() returns (r: bool)
      requires Valid()
      ensures r == Diagonal1Full(cells, player)
    {
      for line := 0 to N
        invariant forall i :: 0 <= i < line ==> board[i, i] == player
      {
        if board[line, line] != player {
          return false;
        }
      }
      return true;
    }

    /** checkDiagonal2: the anti-diagonal is the current player's. */
    method CheckDiagonal2() returns (r: bool)
      requires Valid()
      ensures r == Diagonal2Full(cells, player)
    {
      for line := 0 to N
        invariant forall i :: 0 <= i < line ==> cells[i][N - i - 1] == player
      {
        if board[line, N - line - 1] != player {
          return false;
        }
      }
      return true;
    }

    /** checkDiagonal: either diagonal is the current player's. */
    method CheckDiagonal() returns (r: bool)
      requires Valid()
      ensures r == (Diagonal1Full(cells, player) || Diagonal2Full(cells, player))
    {
      r := CheckDiagonal1();
      if !r {
        r := CheckDiagonal2();
      }
    }

    /**
     * checkWin: scans the cells row by row and, at each cell of the current
     * player, checks its row, its column and both diagonals. It answers
     * exactly whether the current player has a full row, column or diagonal.
     */
    method CheckWin() returns (r: bool)
      requires Valid()
      ensures r == ScanFindsWin(cells, player)
    {
      for line := 0 to N
        invariant ScanMisses(cells, player, line)
      {
        for cell := 0 to N
          invariant RowScanMisses(cells, player, line, cell)
        {
          assert cells[line][cell] == board[line, cell];
          if board[line, cell] == player {
            r := CheckLine(line);
            if r {
              assert WinsThrough(cells, line, cell, player);
              return;
            }
            r := CheckColumn(cell);
            if r {
              assert WinsThrough(cells, line, cell, player);
              return;
            }
            r := CheckDiagonal();
            if r {
              assert WinsThrough(cells, line, cell, player);
              return;
            }
          }
        }
      }
      ScanMissesIffNoWin(cells, player);
      return false;
    }

    /** checkDraw: no cell is EMPTY. */
    method CheckDraw() returns (r: bool)
      requires Valid()
      ensures r == Full(cells)
    {
      for line := 0 to N
        invariant forall i, j :: 0 <= i < line && 0 <= j < N ==> board[i, j] != Empty
      {
        for cell := 0 to N
          invariant forall i, j :: 0 <= i < line && 0 <= j < N ==> board[i, j] != Empty
          invariant forall j :: 0 <= j < cell ==> board[line, j] != Empty
        {
          if board[line, cell] == Empty {
            return false;
          }
        }
      }
      return true;
    }

    /**
     * makeMove(line, cell), as a click on that cell triggers it. The outcome
     * is what the scene shows through showMessage: a win of the player who
     * moved, a draw, or nothing.
     */
    method MakeMove(line: int, cell: int) returns (outcome: Outcome)
      requires Valid() && InRange(line, cell)
      modifies this`status, this`player, this`cells, board
      ensures Valid() && board == old(board)
      ensures (Snapshot(), outcome) == Move(old(Snapshot()), line, cell)
    {
      if status == Finished {
        return NoOutcome;
      }
      ghost var before := Snapshot();
      if board[line, cell] == Empty {
        board[line, cell] := player;
        cells := Place(cells, line, cell, player);
        assert Valid();
        var won := CheckWin();
        if won {
          outcome := Win(player);
          status := Finished;
        } else {
          var draw := CheckDraw();
          if draw {
            outcome := Draw;
            status := Finished;
          } else {
            NextPlayer();
            status := Running;
            outcome := NoOutcome;
          }
        }
      } else {
        outcome := NoOutcome;
      }
    }
  }
}
