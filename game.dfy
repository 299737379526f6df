/**
  internal/game/game.go, part two: the `Game` interface as a sum over the two
  engines, and the `NewGame` factory.
*/
module Games {
  import opened Wrappers
  import opened GameKinds
  import TicTacToe
  import Checkers

  /**
    A value of the `Game` interface that is not nil. Each case holds the
    engine's pointer, which may itself be nil (a "typed nil" interface).
  */
  datatype Game =
    | TicTacToeGame(ticTacToe: TicTacToe.TicTacToeGame?)
    | CheckersGame(checkers: Checkers.CheckersGame?)
  {
    predicate NonNil() {
      match this
      case TicTacToeGame(t) => t != null
      case CheckersGame(c) => c != null
    }

    /** The engine pointer behind the interface value. */
    function Engine(): object? {
      match this
      case TicTacToeGame(t) => t
      case CheckersGame(c) => c
    }

    /** The objects the engine keeps its state in: itself and its board. */
    function Footprint(): set<object>
      requires NonNil()
      reads Engine()
    {
      match this
      case TicTacToeGame(t) => var e: object := t; {e, t.board}
      case CheckersGame(c) => var e: object := c; {e, c.board}
    }

    ghost predicate EngineValid()
      requires NonNil()
      reads Footprint()
    {
      match this
      case TicTacToeGame(t) => t.Valid()
      case CheckersGame(c) => c.Valid()
    }

    /** `GetGameType()`; calling it through a nil pointer would dereference nil. */
    function GameType(): (r: GameKinds.GameType)
      requires NonNil()
      ensures TicTacToeGame? ==> r == TicTacToeType
      ensures CheckersGame? ==> r == CheckersType
    {
      match this
      case TicTacToeGame(t) => t.gameType
      case CheckersGame(c) => c.gameType
    }
  }

  /** A value of the `GameTurn` interface that is not nil: a move for one of the two engines. */
  datatype GameTurn =
    | TicTacToeMove(ticTacToe: TicTacToe.TicTacToeTurn)
    | CheckersMove(checkers: Checkers.CheckersTurn)
  {
    /** `GetGameType()` of each turn type. */
    function GameType(): (r: GameKinds.GameType)
      ensures TicTacToeMove? <==> r == TicTacToeType
      ensures CheckersMove? <==> r == CheckersType
    {
      match this
      case TicTacToeMove(_) => TicTacToeType
      case CheckersMove(_) => CheckersType
    }
  }

  /** `NewGame`: a fresh engine for a known type, nil for any other. */
  method NewGame(gameType: GameKinds.GameType) returns (r: Option<Game>)
    ensures gameType == TicTacToeType ==>
      r.Some? && r.value.TicTacToeGame? && r.value.NonNil() && fresh(r.value.ticTacToe) &&
      r.value.ticTacToe.Valid() && r.value.ticTacToe.status == Ongoing &&
      TicTacToe.GridOf(r.value.ticTacToe.board) == TicTacToe.EmptyGrid()
    ensures gameType == CheckersType ==>
      r.Some? && r.value.CheckersGame? && r.value.NonNil() && fresh(r.value.checkers) &&
      r.value.checkers.Valid() && r.value.checkers.status == Ongoing &&
      r.value.checkers.whitePieceCount == 12 && r.value.checkers.blackPieceCount == 12
    ensures gameType != TicTacToeType && gameType != CheckersType ==> r == None
    ensures r.Some? ==> r.value.NonNil() && r.value.GameType() == gameType
  {
    if gameType == TicTacToeType {
      var t := new TicTacToe.TicTacToeGame();
      r := Some(TicTacToeGame(t));
    } else if gameType == CheckersType {
      var c := new Checkers.CheckersGame();
      r := Some(CheckersGame(c));
    } else {
      r := None;
    }
  }

  const TicTacToeTurnMismatch := "server error - sent a turn not of type tictactoe turn during tictactoe game"
  const CheckersTurnMismatch := "server error - sent a turn not of type checkers turn during checkers game"

  /** The panic an engine raises when the turn it is handed is not its own kind. */
  function TurnMismatch(g: Game): string {
    if g.TicTacToeGame? then TicTacToeTurnMismatch else CheckersTurnMismatch
  }

  /**
    `Game.ValidateMove` through the interface, with the turn as a `GameTurn`
    interface value (None for nil). Each engine's type assertion panics for a
    nil turn or a turn of the other game; a turn of its own kind is judged by
    the engine (tic-tac-toe with the column bound as intended).
  */
  function ValidateTurn(g: Game, t: Option<GameTurn>, playerNum: int): (r: Exec<(bool, string)>)
    requires g.NonNil() && g.EngineValid()
    reads g.Footprint()
    ensures r.Panic? <==> t.None? || t.value.GameType() != g.GameType()
    ensures r.Panic? ==> r.message == TurnMismatch(g)
    ensures r.Done? && g.TicTacToeGame? ==> r.value == g.ticTacToe.ValidateMove(t.value.ticTacToe, playerNum)
    ensures r.Done? && g.CheckersGame? ==> r.value == g.checkers.ValidateMove(t.value.checkers, playerNum)
  {
    match g
    case TicTacToeGame(e) =>
      if t.Some? && t.value.TicTacToeMove? then Done(e.ValidateMove(t.value.ticTacToe, playerNum))
      else Panic(TicTacToeTurnMismatch)
    case CheckersGame(e) =>
      if t.Some? && t.value.CheckersMove? then Done(e.ValidateMove(t.value.checkers, playerNum))
      else Panic(CheckersTurnMismatch)
  }

  /**
    `Game.ExecuteTurn` through the interface. The type assertion panics as in
    `ValidateTurn` and leaves the game untouched; a turn of the engine's own
    kind is played by the engine, which expects a square on the board
    (tic-tac-toe) or a validated move (checkers). Checkers plays the capture
    as intended: the mover lands beyond the captured piece.
  */
  method ExecuteTurn(g: Game, t: Option<GameTurn>, playerNum: int) returns (r: Exec<string>)
    requires g.NonNil() && g.EngineValid()
    requires g.TicTacToeGame? && t.Some? && t.value.TicTacToeMove? ==> TicTacToe.InBounds(t.value.ticTacToe.coords)
    requires g.CheckersGame? && t.Some? && t.value.CheckersMove? ==> g.checkers.ValidateMove(t.value.checkers, playerNum).0
    modifies g.Footprint()
    ensures g.EngineValid()
    ensures r.Panic? <==> t.None? || t.value.GameType() != g.GameType()
    ensures r.Panic? ==> r.message == TurnMismatch(g) && unchanged(g.Engine()) && unchanged(g.Footprint())
    ensures r.Done? && g.TicTacToeGame? ==>
      var c := t.value.ticTacToe.coords;
      && g.ticTacToe.board[c.y, c.x] == TicTacToe.MarkOf(playerNum)
      && (forall i, j :: 0 <= i < 3 && 0 <= j < 3 && (i != c.y || j != c.x) ==>
            g.ticTacToe.board[i, j] == old(g.ticTacToe.board[i, j]))
      && g.ticTacToe.status == TicTacToe.StatusOf(TicTacToe.GridOf(g.ticTacToe.board))
      && r.value == ""
    ensures r.Done? && g.CheckersGame? ==>
      var m := t.value.checkers;
      var id := Checkers.TruePieceID(m.pieceID, playerNum);
      && g.checkers.status == Checkers.StatusFromCounts(g.checkers.whitePieceCount, g.checkers.blackPieceCount)
      && id in g.checkers.piecePositions
      && g.checkers.piecePositions[id] ==
           old(if g.checkers.IsCapture(m, playerNum) then g.checkers.Landing(m, playerNum) else g.checkers.Target(m, playerNum))
      && var from := old(g.checkers.Origin(m, playerNum));
         var to := old(g.checkers.Target(m, playerNum));
         var land := old(g.checkers.Landing(m, playerNum));
         var capture := old(g.checkers.IsCapture(m, playerNum));
         forall i, j ::
           (0 <= i < 8 && 0 <= j < 8 && (i != from.y || j != from.x) && (i != to.y || j != to.x) &&
            (!capture || i != land.y || j != land.x)) ==>
           g.checkers.board[i, j] == old(g.checkers.board[i, j])
  {
    match g
    case TicTacToeGame(e) =>
      if t.Some? && t.value.TicTacToeMove? {
        var msg := e.ExecuteTurn(t.value.ticTacToe, playerNum);
        r := Done(msg);
      } else {
        r := Panic(TicTacToeTurnMismatch);
      }
    case CheckersGame(e) =>
      if t.Some? && t.value.CheckersMove? {
        var msg := e.ExecuteTurn(t.value.checkers, playerNum);
        r := Done(msg);
      } else {
        r := Panic(CheckersTurnMismatch);
      }
  }
}
