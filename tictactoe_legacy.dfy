/**
  internal/tictactoe/tic_tac_toe.go: the older tic-tac-toe engine the server's
  room still plays. It keeps whose turn it is and a status, but `ExecuteTurn`
  only writes the cell: neither the turn flag nor the status is ever updated.
*/
module LegacyTicTacToe {
  import opened Wrappers
  import opened Vectors
  import opened Strconv

  datatype Square = SquareEmpty | SquareX | SquareO

  datatype LegacyStatus = GameOngoing | XWon | OWon

  datatype TicTacToeTurn = TicTacToeTurn(coords: Vector)

  predicate InBounds(v: Vector) {
    0 <= v.x <= 2 && 0 <= v.y <= 2
  }

  /**
    The panic `Board[Y][X]` raises for a square off the 3x3 board: the row
    index is checked first, then the column.
  */
  function BoardIndexPanic(v: Vector): string {
    if v.y < 0 || v.y > 2 then IndexOutOfRange(v.y, 3) else IndexOutOfRange(v.x, 3)
  }

  /** The game as a value: what a message carries when it copies the Go struct. */
  datatype Snapshot = Snapshot(board: seq<seq<Square>>, isXTurn: bool, status: LegacyStatus)

  class TicTacToeGame {
    var board: array2<Square>
    var isXTurn: bool
    var status: LegacyStatus

    ghost predicate Valid()
      reads this
    {
      board.Length0 == 3 && board.Length1 == 3
    }

    /** A copy of the game, cell by cell. */
    function Snap(): (s: Snapshot)
      requires Valid()
      reads this, board
      ensures |s.board| == 3 && forall r :: 0 <= r < 3 ==> |s.board[r]| == 3
      ensures forall r, c :: 0 <= r < 3 && 0 <= c < 3 ==> s.board[r][c] == board[r, c]
      ensures s.isXTurn == isXTurn && s.status == status
    {
      var b := board;
      Snapshot(seq(3, r requires 0 <= r < 3 reads b => seq(3, c requires 0 <= c < 3 reads b => b[r, c])),
               isXTurn, status)
    }

    /** `NewTicTacToeGame`: an empty board, X to move, the game ongoing. */
    constructor ()
      ensures Valid() && fresh(board)
      ensures forall r, c :: 0 <= r < 3 && 0 <= c < 3 ==> board[r, c] == SquareEmpty
      ensures isXTurn && status == GameOngoing
    {
      board := new Square[3, 3]((_, _) => SquareEmpty);
      isXTurn := true;
      status := GameOngoing;
    }

    /**
      `ValidateMove` as the source writes it: the column test repeats the row
      bound, so a column above 2 with a row in range reaches `Board[Y][X]`,
      which panics.
    */
    function ValidateMoveAsWritten(coords: Vector): (r: Exec<bool>)
      requires Valid()
      reads this, board
      ensures coords.x < 0 || coords.y < 0 || coords.y > 2 ==> r == Done(false)
      ensures r.Panic? <==> 0 <= coords.y <= 2 && coords.x > 2
      ensures r.Panic? ==> r.message == BoardIndexPanic(coords)
      ensures InBounds(coords) ==> r == Done(ValidateMove(coords))
    {
      var rowInBounds := coords.y >= 0 && coords.y <= 2;
      var colInBounds := coords.x >= 0 && coords.y <= 2;
      if !rowInBounds || !colInBounds then Done(false)
      else if coords.x > 2 then Panic(BoardIndexPanic(coords))
      else Done(board[coords.y, coords.x] == SquareEmpty)
    }

    /** `ValidateMove` with the intended column bound: true exactly for an empty square on the board. */
    function ValidateMove(coords: Vector): (r: bool)
      requires Valid()
      reads this, board
      ensures r <==> InBounds(coords) && Snap().board[coords.y][coords.x] == SquareEmpty
    {
      var rowInBounds := coords.y >= 0 && coords.y <= 2;
      var colInBounds := coords.x >= 0 && coords.x <= 2;
      if !rowInBounds || !colInBounds then false
      else board[coords.y, coords.x] == SquareEmpty
    }

    /**
      `ExecuteTurn`: writes O for player 2 and X for anyone else at the turn's
      square; every other cell, the turn flag and the status stay as they were.
      A square off the board makes the array access panic, so the caller
      supplies one on it.
    */
    method ExecuteTurn(turn: TicTacToeTurn, playerNum: int)
      requires Valid() && InBounds(turn.coords)
      modifies board
      ensures board[turn.coords.y, turn.coords.x] == (if playerNum == 2 then SquareO else SquareX)
      ensures forall r, c :: 0 <= r < 3 && 0 <= c < 3 && (r != turn.coords.y || c != turn.coords.x) ==>
        board[r, c] == old(board[r, c])
      ensures isXTurn == old(isXTurn) && status == old(status)
    {
      var coords := turn.coords;
      var playerSquare := SquareX;
      if playerNum == 2 {
        playerSquare := SquareO;
      }
      board[coords.y, coords.x] := playerSquare;
    }
  }

  /** A square `ExecuteTurn` has just filled no longer validates, whoever filled it. */
  lemma ExecutedSquareIsTaken(game: TicTacToeGame, coords: Vector)
    requires game.Valid() && InBounds(coords) && game.board[coords.y, coords.x] != SquareEmpty
    ensures !game.ValidateMove(coords)
  {
  }

  /** The column-bound slip, exhibited: (3, 0) passes the bounds test as written and then indexes past the row. */
  lemma ColumnBoundMissed(game: TicTacToeGame)
    requires game.Valid()
    ensures game.ValidateMoveAsWritten(Vector(3, 0)) == Panic("runtime error: index out of range [3] with length 3")
    ensures !game.ValidateMove(Vector(3, 0))
  {
  }
}
