/**
  commands.go: the text commands of the line-oriented client. `GetCommands`
  names them; each game command turns its argument list into the client
  message it stands for, or into an error.
*/
module Commands {
  import opened Wrappers
  import opened Strconv
  import opened Vectors
  import opened GameKinds
  import opened Games
  import opened Messages
  import TicTacToe
  import Checkers
  import Sessions

  // Terminal colour escapes from main.go.
  const AnsiReset := "\U{1b}[0m"
  const AnsiYellow := "\U{1b}[33m"

  /** The four commands that build a message for the server. */
  datatype GameCommandKind = JoinCommand | SelectGameCommand | SendTurnCommand | QuitCommand

  /**
    An entry of the command table: a basic command (its callback prints or
    exits) or a game command that builds a client message.
  */
  datatype Command =
    | BasicCommand(name: string, description: string)
    | GameCommand(kind: GameCommandKind, name: string, description: string)

  /** `GetCommands`: six entries; help and exit are basic, the other four game commands. */
  function GetCommands(): (m: map<string, Command>)
    ensures m.Keys == {"help", "exit", "join", "select", "move", "quit"}
    ensures forall k :: k in m ==> (m[k].BasicCommand? <==> k == "help" || k == "exit")
    ensures forall k :: k in m && k != "select" ==> m[k].name == k
    ensures m["select"].name == "select game"
    ensures m["join"] == GameCommand(JoinCommand, "join", m["join"].description)
    ensures m["select"].kind == SelectGameCommand && m["move"].kind == SendTurnCommand && m["quit"].kind == QuitCommand
  {
    map[
      "help" := BasicCommand("help", "display the list of all commands"),
      "exit" := BasicCommand("exit", "exit the application"),
      "join" := GameCommand(JoinCommand, "join", "join a room. Usage: " + AnsiYellow + "join <room-code>" + AnsiReset),
      "select" := GameCommand(SelectGameCommand, "select game",
                              "select a game. Usage: " + AnsiYellow + "select <game-number>" + AnsiReset),
      "move" := GameCommand(SendTurnCommand, "move",
                            "select square. Usage: " + AnsiYellow + "move <row-num> <col-num>" + AnsiReset),
      "quit" := GameCommand(QuitCommand, "quit", "quits current game.")
    ]
  }

  const JoinArgsError := "not enough arguments provided. Expecting " + AnsiYellow + "<room-code>" + AnsiReset
  const SelectArgsError := "not enough arguments provided. Expecting " + AnsiYellow + "<game-number>" + AnsiReset
  const InvalidGameNumber := "invalid game number. Valid numbers are: " + AnsiYellow + "'1', '2'" + AnsiReset
  const UnknownGameType := "unknown game type"
  const MoveArgsError := "not enough arguments provided. Expecting " + AnsiYellow + "<row-num> <col-num>" + AnsiReset
  const RowNotNumber := "row number must be a number"
  const ColNotNumber := "col number must be a number"
  const CheckersArgsError :=
    "not enough arguments provided. Expecting " + AnsiYellow + "<piece-num> <move-direction>" + AnsiReset
  const PieceNotNumber := "piece number must be a number"
  const InvalidDirection := "invalid direction. Valid directions are: " + AnsiYellow + "'l', 'r', 'bl', 'br'" + AnsiReset

  // ---------------------------------------------------------------------------
  // join, select, quit

  /** `CommandJoin.CreatePlayerMessage`: the first argument is the room code. */
  function CreateJoinMessage(args: seq<string>): (r: Result<ClientMessage>)
    ensures r.Failure? <==> |args| == 0
    ensures r.Failure? ==> r.error == JoinArgsError
    ensures r.Success? ==> r.value.msgType == ClientJoinRoom && r.value.roomCode == args[0]
    ensures r.Success? ==> r.value == ClientMessageOf(ClientJoinRoom).(roomCode := r.value.roomCode)
  {
    if |args| < 1 then Failure(JoinArgsError)
    else Success(ClientMessageOf(ClientJoinRoom).(roomCode := args[0]))
  }

  /** `join <code>` asks for the same room, with the same message, as typing the code in the menu. */
  lemma JoinAgreesWithMenu(s: Sessions.Session, code: string, rest: seq<string>)
    requires s.state.InMenu? && code != ""
    ensures Sessions.HandleMenuInput(s, "enter", Sessions.KeyContext(code, None, false)).cmd
         == Sessions.Send(CreateJoinMessage([code] + rest).value)
  {
  }

  /** `CommandSelectGame.CreatePlayerMessage`: game number 1 is tic-tac-toe and 2 is checkers. */
  function CreateSelectGameMessage(args: seq<string>): (r: Result<ClientMessage>)
    ensures |args| == 0 ==> r == Failure(SelectArgsError)
    ensures |args| > 0 ==> (r.Success? <==> args[0] == "1" || args[0] == "2")
    ensures |args| > 0 && r.Failure? ==> r.error == InvalidGameNumber
    ensures r.Success? ==> r.value.msgType == ClientSelectGameType && r.value.roomCode == ""
    ensures r.Success? ==> GameTypeString(r.value.gameType) != "Unknown"
    ensures r.Success? ==> (r.value.gameType == CheckersType <==> args[0] == "2")
  {
    if |args| < 1 then Failure(SelectArgsError)
    else
      var gameNumber := args[0];
      if gameNumber == "1" then Success(ClientMessageOf(ClientSelectGameType).(gameType := TicTacToeType))
      else if gameNumber == "2" then Success(ClientMessageOf(ClientSelectGameType).(gameType := CheckersType))
      else Failure(InvalidGameNumber)
  }

  /**
    A game type is selected by its number, one more than its value; unlike
    the selection screen, the command also reaches checkers.
  */
  lemma SelectByNumber(gt: GameType)
    requires gt == TicTacToeType || gt == CheckersType
    ensures CreateSelectGameMessage([IntToString(gt + 1)]) == Success(ClientMessageOf(ClientSelectGameType).(gameType := gt))
  {
    assert IntToString(1) == "1" && IntToString(2) == "2";
  }

  /** `CommandQuit.CreatePlayerMessage`: always QuitRoom, whatever the arguments. */
  function CreateQuitMessage(args: seq<string>): (r: Result<ClientMessage>)
    ensures r == Success(ClientMessageOf(ClientQuitRoom))
  {
    Success(ClientMessageOf(ClientQuitRoom))
  }

  // ---------------------------------------------------------------------------
  // move

  /**
    `createTicTacToeTurn`: the first argument is the row (Y) and the second
    the column (X), each a decimal 32-bit integer.
  */
  function CreateTicTacToeTurn(args: seq<string>): (r: Result<ClientMessage>)
    ensures |args| < 2 ==> r == Failure(MoveArgsError)
    ensures |args| >= 2 && ParseInt32(args[0]).None? ==> r == Failure(RowNotNumber)
    ensures |args| >= 2 && ParseInt32(args[0]).Some? && ParseInt32(args[1]).None? ==> r == Failure(ColNotNumber)
    ensures r.Success? <==> |args| >= 2 && ParseInt32(args[0]).Some? && ParseInt32(args[1]).Some?
    ensures r.Success? ==>
      && r.value == Sessions.TicTacToeTurnMessage(Vector(ParseInt32(args[1]).value, ParseInt32(args[0]).value))
      && GetGameTurn(r.value.turnAction) ==
           Some(TicTacToeMove(TicTacToe.TicTacToeTurn(Vector(ParseInt32(args[1]).value, ParseInt32(args[0]).value))))
  {
    if |args| < 2 then Failure(MoveArgsError)
    else
      var moveRow := ParseInt32(args[0]);
      if moveRow.None? then Failure(RowNotNumber)
      else
        var moveCol := ParseInt32(args[1]);
        if moveCol.None? then Failure(ColNotNumber)
        else Success(Sessions.TicTacToeTurnMessage(Vector(moveCol.value, moveRow.value)))
  }

  /**
    `move <row> <col>` with the square's coordinates printed in decimal
    sends exactly the move the keyboard sends with the cursor on that square.
  */
  lemma MoveCommandRoundTrip(c: Vector)
    requires MinInt32 <= c.x <= MaxInt32 && MinInt32 <= c.y <= MaxInt32
    ensures CreateTicTacToeTurn([IntToString(c.y), IntToString(c.x)]) == Success(Sessions.TicTacToeTurnMessage(c))
  {
    ParseIntOfIntToString(c.y);
    ParseIntOfIntToString(c.x);
  }

  /** The direction each argument of a checkers move names. */
  function DirectionArg(arg: string): (d: Option<Checkers.Direction>)
    ensures d.Some? ==> Checkers.IsDirection(d.value)
    ensures d.Some? ==> (Checkers.IsBackward(d.value) <==> |arg| == 2)
  {
    if arg == "l" then Some(Checkers.Left)
    else if arg == "r" then Some(Checkers.Right)
    else if arg == "bl" then Some(Checkers.BackLeft)
    else if arg == "br" then Some(Checkers.BackRight)
    else None
  }

  /** The argument that names each direction. */
  function DirectionName(d: Checkers.Direction): string
    requires Checkers.IsDirection(d)
  {
    if d == Checkers.Left then "l"
    else if d == Checkers.Right then "r"
    else if d == Checkers.BackLeft then "bl"
    else "br"
  }

  /** Each of the four directions is named by exactly one argument. */
  lemma DirectionNamesRoundTrip(d: Checkers.Direction, arg: string)
    requires Checkers.IsDirection(d)
    ensures DirectionArg(DirectionName(d)) == Some(d)
    ensures DirectionArg(arg) == Some(d) ==> arg == DirectionName(d)
  {
  }

  /** `createCheckersTurn`: a decimal 32-bit piece number, then one of l, r, bl, br. */
  function CreateCheckersTurn(args: seq<string>): (r: Result<ClientMessage>)
    ensures |args| < 2 ==> r == Failure(CheckersArgsError)
    ensures |args| >= 2 && ParseInt32(args[0]).None? ==> r == Failure(PieceNotNumber)
    ensures |args| >= 2 && ParseInt32(args[0]).Some? && DirectionArg(args[1]).None? ==> r == Failure(InvalidDirection)
    ensures r.Success? <==> |args| >= 2 && ParseInt32(args[0]).Some? && DirectionArg(args[1]).Some?
    ensures r.Success? ==>
      && r.value.msgType == ClientSendTurn
      && GetGameTurn(r.value.turnAction) ==
           Some(CheckersMove(Checkers.CheckersTurn(ParseInt32(args[0]).value, DirectionArg(args[1]).value)))
  {
    if |args| < 2 then Failure(CheckersArgsError)
    else
      var pieceNum := ParseInt32(args[0]);
      if pieceNum.None? then Failure(PieceNotNumber)
      else
        var direction := DirectionArg(args[1]);
        if direction.None? then Failure(InvalidDirection)
        else
          var turn := CheckersMove(Checkers.CheckersTurn(pieceNum.value, direction.value));
          TurnRoundTrip(turn);
          Success(ClientMessageOf(ClientSendTurn).(turnAction := NewGameTurnWrapper(Some(turn))))
  }

  /** A checkers turn written out as `move <id> <direction>` is parsed back to itself. */
  lemma CheckersCommandRoundTrip(t: Checkers.CheckersTurn)
    requires MinInt32 <= t.pieceID <= MaxInt32 && Checkers.IsDirection(t.direction)
    ensures var r := CreateCheckersTurn([IntToString(t.pieceID), DirectionName(t.direction)]);
      r.Success? && GetGameTurn(r.value.turnAction) == Some(CheckersMove(t))
  {
    ParseIntOfIntToString(t.pieceID);
  }

  /** `CommandSendTurn.CreatePlayerMessage`: the turn shape follows the game being played. */
  function CreateSendTurnMessage(gameType: GameType, args: seq<string>): (r: Result<ClientMessage>)
    ensures gameType != TicTacToeType && gameType != CheckersType ==> r == Failure(UnknownGameType)
    ensures gameType == TicTacToeType ==> r == CreateTicTacToeTurn(args)
    ensures gameType == CheckersType ==> r == CreateCheckersTurn(args)
    ensures r.Success? ==>
      r.value.msgType == ClientSendTurn && GetGameTurn(r.value.turnAction).Some? &&
      GetGameTurn(r.value.turnAction).value.GameType() == gameType
  {
    if gameType == TicTacToeType then CreateTicTacToeTurn(args)
    else if gameType == CheckersType then CreateCheckersTurn(args)
    else Failure(UnknownGameType)
  }

  /** `GameCommand.CreatePlayerMessage` for each kind of game command. */
  function CreatePlayerMessage(kind: GameCommandKind, gameType: GameType, args: seq<string>): (r: Result<ClientMessage>)
    ensures r.Success? ==>
      r.value.msgType == (match kind
                          case JoinCommand => ClientJoinRoom
                          case SelectGameCommand => ClientSelectGameType
                          case SendTurnCommand => ClientSendTurn
                          case QuitCommand => ClientQuitRoom)
    ensures kind == QuitCommand ==> r.Success?
  {
    match kind
    case JoinCommand => CreateJoinMessage(args)
    case SelectGameCommand => CreateSelectGameMessage(args)
    case SendTurnCommand => CreateSendTurnMessage(gameType, args)
    case QuitCommand => CreateQuitMessage(args)
  }
}
