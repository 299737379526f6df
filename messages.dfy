/**
  internal/messages/messages.go: the messages exchanged between client and
  server. A game or a turn travels inside a wrapper that carries a type tag and
  one payload field per game; `NewGameWrapper`/`GetGame` and
  `NewGameTurnWrapper`/`GetGameTurn` put a value in and take it out.
*/
module Messages {
  import opened Wrappers
  import opened GameKinds
  import opened Vectors
  import TicTacToe
  import Checkers
  import opened Games

  /** `GameResult`, a Go int. */
  type GameResult = int

  const GameResultPlayerWin: GameResult := 0
  const GameResultPlayerLose: GameResult := 1
  const GameResultDraw: GameResult := 2

  // ---------------------------------------------------------------------------
  // Games

  /** `GameWrapper`: a type tag and one pointer per engine, nil when unused. */
  datatype GameWrapper = GameWrapper(
    gameType: GameType,
    ticTacToe: TicTacToe.TicTacToeGame?,
    checkers: Checkers.CheckersGame?)

  /** `GameWrapper{}`: the tag is 0, which is tic-tac-toe, and both pointers are nil. */
  const ZeroGameWrapper := GameWrapper(TicTacToeType, null, null)

  /**
    `GetGame`: the payload the tag selects, as a `Game` interface value (which
    is not nil even when the pointer inside it is); nil for an unknown tag.
  */
  function GetGame(w: GameWrapper): (r: Option<Game>)
    ensures r.None? <==> w.gameType != TicTacToeType && w.gameType != CheckersType
    ensures r.Some? ==> (r.value.TicTacToeGame? <==> w.gameType == TicTacToeType)
    ensures w.gameType == TicTacToeType ==> r == Some(TicTacToeGame(w.ticTacToe))
    ensures w.gameType == CheckersType ==> r == Some(CheckersGame(w.checkers))
  {
    if w.gameType == TicTacToeType then Some(TicTacToeGame(w.ticTacToe))
    else if w.gameType == CheckersType then Some(CheckersGame(w.checkers))
    else None
  }

  /**
    `NewGameWrapper`: nil gives the zero wrapper; otherwise the tag is the
    game's type and only the matching payload is set. Asking a typed-nil game
    for its type dereferences nil, so a present game must hold an engine.
  */
  function NewGameWrapper(g: Option<Game>): (w: GameWrapper)
    requires g.Some? ==> g.value.NonNil()
    ensures g.None? ==> w == ZeroGameWrapper
    ensures g.Some? ==> w.gameType == g.value.GameType()
    ensures g.Some? && g.value.TicTacToeGame? ==> w.ticTacToe == g.value.ticTacToe && w.checkers == null
    ensures g.Some? && g.value.CheckersGame? ==> w.checkers == g.value.checkers && w.ticTacToe == null
  {
    match g
    case None => ZeroGameWrapper
    case Some(game) =>
      match game
      case TicTacToeGame(t) => GameWrapper(game.GameType(), t, null)
      case CheckersGame(c) => GameWrapper(game.GameType(), null, c)
  }

  /** Unwrapping a wrapped game gives the same game back, for both engines. */
  lemma GameRoundTrip(g: Game)
    requires g.NonNil()
    ensures GetGame(NewGameWrapper(Some(g))) == Some(g)
  {
  }

  /**
    Wrapping nil does not round-trip: the zero wrapper's tag reads as
    tic-tac-toe, so unwrapping it yields a non-nil `Game` holding a nil pointer.
  */
  lemma NilGameUnwrapsToTypedNil()
    ensures GetGame(NewGameWrapper(None)) == Some(TicTacToeGame(null))
    ensures !GetGame(NewGameWrapper(None)).value.NonNil()
  {
  }

  // ---------------------------------------------------------------------------
  // Turns

  /** `GameTurnWrapper`: a type tag and one turn value per game (zero-valued when unused). */
  datatype GameTurnWrapper = GameTurnWrapper(
    gameType: GameType,
    ticTacToeTurn: TicTacToe.TicTacToeTurn,
    checkersTurn: Checkers.CheckersTurn)

  const ZeroTicTacToeTurn := TicTacToe.TicTacToeTurn(Zero)
  const ZeroCheckersTurn := Checkers.CheckersTurn(0, Checkers.Left)
  const ZeroGameTurnWrapper := GameTurnWrapper(TicTacToeType, ZeroTicTacToeTurn, ZeroCheckersTurn)

  /** `GetGameTurn`: the turn the tag selects; nil for an unknown tag. */
  function GetGameTurn(w: GameTurnWrapper): (r: Option<GameTurn>)
    ensures r.None? <==> w.gameType != TicTacToeType && w.gameType != CheckersType
    ensures r.Some? ==> r.value.GameType() == w.gameType
    ensures w.gameType == TicTacToeType ==> r == Some(TicTacToeMove(w.ticTacToeTurn))
    ensures w.gameType == CheckersType ==> r == Some(CheckersMove(w.checkersTurn))
  {
    if w.gameType == TicTacToeType then Some(TicTacToeMove(w.ticTacToeTurn))
    else if w.gameType == CheckersType then Some(CheckersMove(w.checkersTurn))
    else None
  }

  /** `NewGameTurnWrapper`: nil gives the zero wrapper; otherwise the tag and the matching field are set. */
  function NewGameTurnWrapper(t: Option<GameTurn>): (w: GameTurnWrapper)
    ensures t.None? ==> w == ZeroGameTurnWrapper
    ensures t.Some? ==> w.gameType == t.value.GameType()
    ensures t.Some? && t.value.TicTacToeMove? ==>
      w.ticTacToeTurn == t.value.ticTacToe && w.checkersTurn == ZeroCheckersTurn
    ensures t.Some? && t.value.CheckersMove? ==>
      w.checkersTurn == t.value.checkers && w.ticTacToeTurn == ZeroTicTacToeTurn
  {
    match t
    case None => ZeroGameTurnWrapper
    case Some(turn) =>
      match turn
      case TicTacToeMove(m) => GameTurnWrapper(turn.GameType(), m, ZeroCheckersTurn)
      case CheckersMove(m) => GameTurnWrapper(turn.GameType(), ZeroTicTacToeTurn, m)
  }

  /** Unwrapping a wrapped turn gives the same turn back, for both games. */
  lemma TurnRoundTrip(t: GameTurn)
    ensures GetGameTurn(NewGameTurnWrapper(Some(t))) == Some(t)
  {
  }

  /** Wrapping a nil turn does not round-trip: it unwraps to a tic-tac-toe move at (0, 0). */
  lemma NilTurnUnwrapsToCornerMove()
    ensures GetGameTurn(NewGameTurnWrapper(None)) == Some(TicTacToeMove(TicTacToe.TicTacToeTurn(Vector(0, 0))))
  {
  }

  // ---------------------------------------------------------------------------
  // Server and client messages

  /** `ServerMessageType`, a Go int with nine named values. */
  type ServerMessageType = int

  const ServerRoomJoined: ServerMessageType := 0
  const ServerEnteredGameSelection: ServerMessageType := 1
  const ServerGameStarted: ServerMessageType := 2
  const ServerTurnResult: ServerMessageType := 3
  const ServerRoomDisconnected: ServerMessageType := 4
  const ServerGameFinished: ServerMessageType := 5
  const ServerRoomClosed: ServerMessageType := 6
  const ServerRoomUnavailable: ServerMessageType := 7
  const ServerError: ServerMessageType := 8

  /** `ServerMessageType.String`. */
  function ServerMessageTypeString(t: ServerMessageType): (s: string)
    ensures s == "Unknown" <==> !(ServerRoomJoined <= t <= ServerError)
  {
    if t == ServerRoomJoined then "Room Joined"
    else if t == ServerEnteredGameSelection then "Entered Game Selection"
    else if t == ServerGameStarted then "Game Started"
    else if t == ServerTurnResult then "Turn Result"
    else if t == ServerRoomDisconnected then "Room Disconnected"
    else if t == ServerGameFinished then "Game Finished"
    else if t == ServerRoomClosed then "Room Closed"
    else if t == ServerRoomUnavailable then "Room Unavailable"
    else if t == ServerError then "Error"
    else "Unknown"
  }

  /** The nine named message types print with nine different labels. */
  lemma ServerMessageTypeLabelsDistinct(a: ServerMessageType, b: ServerMessageType)
    requires ServerRoomJoined <= a <= ServerError && ServerRoomJoined <= b <= ServerError
    requires a != b
    ensures ServerMessageTypeString(a) != ServerMessageTypeString(b)
  {
  }

  /** `ServerMessage`: every field of the Go struct; unused fields keep Go's zero values. */
  datatype ServerMessage = ServerMessage(
    msgType: ServerMessageType,
    playerNumber: int,
    playerTurn: int,
    game: GameWrapper,
    gameResult: GameResult,
    quittingPlayerNum: int,
    errorMessage: string)

  /** A server message of the given type with every other field at its zero value. */
  function ServerMessageOf(t: ServerMessageType): (m: ServerMessage)
    ensures m.msgType == t && m.game == ZeroGameWrapper && m.errorMessage == ""
    ensures m.playerNumber == 0 && m.playerTurn == 0 && m.gameResult == 0 && m.quittingPlayerNum == 0
  {
    ServerMessage(t, 0, 0, ZeroGameWrapper, 0, 0, "")
  }

  /** `ClientMessageType`, a Go int with five named values. */
  type ClientMessageType = int

  const ClientJoinRoom: ClientMessageType := 0
  const ClientSelectGameType: ClientMessageType := 1
  const ClientSendTurn: ClientMessageType := 2
  const ClientQuitRoom: ClientMessageType := 3
  const ClientPlayAgain: ClientMessageType := 4

  /** `ClientMessage`: every field of the Go struct. */
  datatype ClientMessage = ClientMessage(
    msgType: ClientMessageType,
    roomCode: string,
    gameType: GameType,
    turnAction: GameTurnWrapper)

  /** A client message of the given type with every other field at its zero value. */
  function ClientMessageOf(t: ClientMessageType): (m: ClientMessage)
    ensures m.msgType == t && m.roomCode == "" && m.turnAction == ZeroGameTurnWrapper
    ensures m.gameType == TicTacToeType
  {
    ClientMessage(t, "", TicTacToeType, ZeroGameTurnWrapper)
  }
}
