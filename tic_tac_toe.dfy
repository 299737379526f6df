/**
  internal/game/tic_tac_toe.go: the 3x3 tic-tac-toe engine. Player 1 plays X,
  player 2 plays O. `ValidateMove` is a query; `ExecuteTurn` writes one cell
  in place and recomputes the status by scanning the three rows, the three
  columns and the two diagonals, then checking for a full board.
*/
module TicTacToe {
  import opened Wrappers
  import opened GameKinds
  import opened Vectors
  import opened Strconv

  datatype Square = Empty | X | O

  /** A board snapshot, row-major: `g[row][col]`, as the source indexes `Board[Y][X]`. */
  type Grid = seq<seq<Square>>

  predicate IsGrid(g: Grid) {
    |g| == 3 && forall r :: 0 <= r < 3 ==> |g[r]| == 3
  }

  function EmptyGrid(): (g: Grid)
    ensures IsGrid(g)
  {
    seq(3, _ => seq(3, _ => Empty))
  }

  /** A move: `Coords.X` is the column, `Coords.Y` the row. */
  datatype TicTacToeTurn = TicTacToeTurn(coords: Vector)

  const OutOfBoundsReason := "selected square is out of bounds"
  const OccupiedReason := "square is occupied"

  predicate InBounds(v: Vector) {
    0 <= v.x <= 2 && 0 <= v.y <= 2
  }

  /** The mark a player writes: O for player 2, X for every other player number. */
  function MarkOf(playerNum: int): (s: Square)
    ensures s != Empty
    ensures s == O <==> playerNum == 2
  {
    if playerNum == 2 then O else X
  }

  // ---------------------------------------------------------------------------
  // The status of a board, as a function of a snapshot

  /** A cell of the board, by row and column. */
  datatype Cell = Cell(row: int, col: int)

  /**
    The eight lines in the order the source checks them: rows 0..2, columns
    0..2, the main diagonal, then the anti-diagonal.
  */
  function LineAt(k: nat): (cells: seq<Cell>)
    requires k < 8
    ensures |cells| == 3
    ensures forall i :: 0 <= i < 3 ==> 0 <= cells[i].row < 3 && 0 <= cells[i].col < 3
  {
    if k < 3 then [Cell(k, 0), Cell(k, 1), Cell(k, 2)]
    else if k < 6 then [Cell(0, k - 3), Cell(1, k - 3), Cell(2, k - 3)]
    else if k == 6 then [Cell(0, 0), Cell(1, 1), Cell(2, 2)]
    else [Cell(0, 2), Cell(1, 1), Cell(2, 0)]
  }

  function At(g: Grid, c: Cell): Square
    requires IsGrid(g) && 0 <= c.row < 3 && 0 <= c.col < 3
  {
    g[c.row][c.col]
  }

  /** Line `k` holds three equal marks. */
  predicate Complete(g: Grid, k: nat)
    requires IsGrid(g) && k < 8
  {
    var line := LineAt(k);
    At(g, line[0]) != Empty && At(g, line[0]) == At(g, line[1]) && At(g, line[1]) == At(g, line[2])
  }

  /** The mark on the first cell of line `k`. */
  function LineMark(g: Grid, k: nat): Square
    requires IsGrid(g) && k < 8
  {
    At(g, LineAt(k)[0])
  }

  /** Some line is three copies of mark `s`. */
  predicate HasLine(g: Grid, s: Square)
    requires IsGrid(g)
  {
    exists k :: 0 <= k < 8 && Complete(g, k) && LineMark(g, k) == s
  }

  predicate NoLine(g: Grid)
    requires IsGrid(g)
  {
    forall k :: 0 <= k < 8 ==> !Complete(g, k)
  }

  predicate Full(g: Grid)
    requires IsGrid(g)
  {
    forall r, c :: 0 <= r < 3 && 0 <= c < 3 ==> g[r][c] != Empty
  }

  /** The mark of the first complete line at index `k` or later, in checking order; Empty if none. */
  function FirstWinner(g: Grid, k: nat): Square
    requires IsGrid(g) && k <= 8
    decreases 8 - k
  {
    if k == 8 then Empty
    else if Complete(g, k) then LineMark(g, k)
    else FirstWinner(g, k + 1)
  }

  /** The status `checkGameStatus` derives from a board. */
  function StatusOf(g: Grid): GameStatus
    requires IsGrid(g)
  {
    var w := FirstWinner(g, 0);
    if w == X then Player1Win
    else if w == O then Player2Win
    else if Full(g) then Draw
    else Ongoing
  }

  lemma {:induction false} FirstWinnerFinds(g: Grid, k: nat)
    requires IsGrid(g) && k <= 8
    ensures FirstWinner(g, k) == Empty <==> forall i :: k <= i < 8 ==> !Complete(g, i)
    ensures FirstWinner(g, k) != Empty ==>
      exists i :: k <= i < 8 && Complete(g, i) && LineMark(g, i) == FirstWinner(g, k)
    decreases 8 - k
  {
    if k < 8 && !Complete(g, k) {
      FirstWinnerFinds(g, k + 1);
    }
  }

  /** A win for a player is always backed by a line of that player's marks. */
  lemma WinHasLine(g: Grid)
    requires IsGrid(g)
    ensures StatusOf(g) == Player1Win ==> HasLine(g, X)
    ensures StatusOf(g) == Player2Win ==> HasLine(g, O)
  {
    FirstWinnerFinds(g, 0);
  }

  /** When only one player has a line, that player has won. */
  lemma SoleLineWins(g: Grid)
    requires IsGrid(g)
    ensures HasLine(g, X) && !HasLine(g, O) ==> StatusOf(g) == Player1Win
    ensures HasLine(g, O) && !HasLine(g, X) ==> StatusOf(g) == Player2Win
  {
    FirstWinnerFinds(g, 0);
    if HasLine(g, X) || HasLine(g, O) {
      var k :| 0 <= k < 8 && Complete(g, k);
      assert FirstWinner(g, 0) != Empty;
    }
  }

  /** Draw exactly when no line is complete and no square is empty; Ongoing when no line and a free square. */
  lemma DrawIffFullWithoutLine(g: Grid)
    requires IsGrid(g)
    ensures StatusOf(g) == Draw <==> NoLine(g) && Full(g)
    ensures StatusOf(g) == Ongoing <==> NoLine(g) && !Full(g)
  {
    FirstWinnerFinds(g, 0);
  }

  /** The contents of a 3x3 board array as a value. */
  ghost function GridOf(b: array2<Square>): (g: Grid)
    requires b.Length0 == 3 && b.Length1 == 3
    reads b
    ensures IsGrid(g)
    ensures forall r, c :: 0 <= r < 3 && 0 <= c < 3 ==> g[r][c] == b[r, c]
  {
    seq(3, r requires 0 <= r < 3 reads b => seq(3, c requires 0 <= c < 3 reads b => b[r, c]))
  }

  // ---------------------------------------------------------------------------
  // The engine

  class TicTacToeGame {
    /** `GameType`: `NewTicTacToeGame` leaves it at Go's zero value, which is tic-tac-toe. */
    const gameType: GameType := TicTacToeType
    var board: array2<Square>
    var status: GameStatus

    ghost predicate Valid()
      reads this
    {
      board.Length0 == 3 && board.Length1 == 3
    }

    /** `NewTicTacToeGame`: an all-empty board and status Ongoing. */
    constructor ()
      ensures Valid() && fresh(board)
      ensures GridOf(board) == EmptyGrid() && status == Ongoing
    {
      board := new Square[3, 3]((r, c) => Empty);
      status := Ongoing;
      new;
      assert forall r :: 0 <= r < 3 ==> GridOf(board)[r] == EmptyGrid()[r];
    }

    /**
      `ValidateMove` as the source writes it: the column test checks `Y <= 2`
      a second time instead of `X <= 2`, so a column above 2 passes the bounds
      check and the array access `Board[Y][X]` panics.
    */
    function ValidateMoveAsWritten(turn: TicTacToeTurn, playerNum: int): (r: Exec<(bool, string)>)
      requires Valid()
      reads this, board
      ensures turn.coords.y < 0 || turn.coords.y > 2 || turn.coords.x < 0 ==>
        r == Done((false, OutOfBoundsReason))
      ensures r.Panic? <==> 0 <= turn.coords.y <= 2 && turn.coords.x > 2
      ensures r.Panic? ==> r.message == IndexOutOfRange(turn.coords.x, 3)
      ensures InBounds(turn.coords) ==> r == Done(ValidateMove(turn, playerNum))
    {
      var c := turn.coords;
      var rowInBounds := c.y >= 0 && c.y <= 2;
      var colInBounds := c.x >= 0 && c.y <= 2;
      if !rowInBounds || !colInBounds then Done((false, OutOfBoundsReason))
      else if c.x > 2 then Panic(IndexOutOfRange(c.x, 3))
      else if board[c.y, c.x] != Empty then Done((false, OccupiedReason))
      else Done((true, ""))
    }

    /**
      `ValidateMove` with the column bound the source evidently intends: a
      move is accepted exactly when its square is on the board and empty.
    */
    function ValidateMove(turn: TicTacToeTurn, playerNum: int): (r: (bool, string))
      requires Valid()
      reads this, board
      ensures !InBounds(turn.coords) ==> r == (false, OutOfBoundsReason)
      ensures InBounds(turn.coords) && GridOf(board)[turn.coords.y][turn.coords.x] != Empty ==>
        r == (false, OccupiedReason)
      ensures r.0 <==> InBounds(turn.coords) && GridOf(board)[turn.coords.y][turn.coords.x] == Empty
      ensures r.0 <==> r.1 == ""
    {
      var c := turn.coords;
      var rowInBounds := c.y >= 0 && c.y <= 2;
      var colInBounds := c.x >= 0 && c.x <= 2;
      if !rowInBounds || !colInBounds then (false, OutOfBoundsReason)
      else if board[c.y, c.x] != Empty then (false, OccupiedReason)
      else (true, "")
    }

    /** `checkGameStatus`: the loops over rows, columns, diagonals and the full-board scan. */
    method CheckGameStatus() returns (s: GameStatus)
      requires Valid()
      ensures s == StatusOf(GridOf(board))
    {
      ghost var g := GridOf(board);
      for i := 0 to 3
        invariant FirstWinner(g, 0) == FirstWinner(g, i)
      {
        if board[i, 0] != Empty && board[i, 0] == board[i, 1] && board[i, 1] == board[i, 2] {
          assert Complete(g, i);
          if board[i, 0] == X {
            return Player1Win;
          } else {
            return Player2Win;
          }
        }
      }
      for j := 0 to 3
        invariant FirstWinner(g, 0) == FirstWinner(g, 3 + j)
      {
        if board[0, j] != Empty && board[0, j] == board[1, j] && board[1, j] == board[2, j] {
          assert Complete(g, 3 + j);
          if board[0, j] == X {
            return Player1Win;
          } else {
            return Player2Win;
          }
        }
      }
      if board[0, 0] != Empty && board[0, 0] == board[1, 1] && board[1, 1] == board[2, 2] {
        assert Complete(g, 6);
        if board[0, 0] == X {
          return Player1Win;
        } else {
          return Player2Win;
        }
      }
      if board[0, 2] != Empty && board[0, 2] == board[1, 1] && board[1, 1] == board[2, 0] {
        assert Complete(g, 7);
        if board[0, 2] == X {
          return Player1Win;
        } else {
          return Player2Win;
        }
      }
      assert FirstWinner(g, 0) == Empty;

      var boardFull := true;
      var i := 0;
      while i < 3
        invariant 0 <= i <= 3
        invariant boardFull ==> forall r, c :: 0 <= r < i && 0 <= c < 3 ==> board[r, c] != Empty
        invariant !boardFull ==> !Full(g)
      {
        var j := 0;
        while j < 3
          invariant 0 <= j <= 3
          invariant boardFull ==> forall c :: 0 <= c < j ==> board[i, c] != Empty
          invariant !boardFull ==> !Full(g)
        {
          if board[i, j] == Empty {
            boardFull := false;
            break;
          }
          j := j + 1;
        }
        if !boardFull {
          break;
        }
        i := i + 1;
      }

      if boardFull {
        return Draw;
      }
      return Ongoing;
    }

    /**
      `ExecuteTurn`: writes the player's mark (O for player 2, X otherwise)
      at the given square, changes no other square, and sets the status from
      the new board. The source assumes validation ran; a square off the
      board is an index panic, so the caller must supply one on the board.
    */
    method ExecuteTurn(turn: TicTacToeTurn, playerNum: int) returns (msg: string)
      requires Valid()
      requires InBounds(turn.coords)
      modifies this, board
      ensures Valid() && board == old(board)
      ensures board[turn.coords.y, turn.coords.x] == MarkOf(playerNum)
      ensures forall r, c :: 0 <= r < 3 && 0 <= c < 3 && (r != turn.coords.y || c != turn.coords.x) ==>
        board[r, c] == old(board[r, c])
      ensures status == StatusOf(GridOf(board))
      ensures msg == ""
    {
      var c := turn.coords;
      var playerSquare := X;
      if playerNum == 2 {
        playerSquare := O;
      }
      board[c.y, c.x] := playerSquare;
      status := CheckGameStatus();
      msg := "";
    }
  }

  /**
    The column-bound slip, exhibited: column 3 of row 0 passes the bounds test
    as written and panics, where the intended check rejects it as out of bounds.
  */
  lemma ColumnBoundMissed(game: TicTacToeGame)
    requires game.Valid()
    ensures game.ValidateMoveAsWritten(TicTacToeTurn(Vector(3, 0)), 1) ==
      Panic("runtime error: index out of range [3] with length 3")
    ensures game.ValidateMove(TicTacToeTurn(Vector(3, 0)), 1) == (false, OutOfBoundsReason)
  {
  }
}
