/**
  session.go: the terminal client. A `Session` value holds the current phase
  (menu, waiting room, game selection, in game, end of game) and what the
  server has told it; `Update` hands key presses to the phase's input handler
  and server messages to the phase's server-message handler. Phases change
  only through `setState`, which panics on a transition it does not allow.
  The game-selection and in-game phases are objects that key presses update
  in place; the other phases are plain values. A Bubble Tea command returned
  by a handler is a `Cmd`.
*/
module Sessions {
  import opened Wrappers
  import opened Strconv
  import opened Vectors
  import opened GameKinds
  import opened Games
  import opened Messages
  import TicTacToe
  import Checkers

  // ---------------------------------------------------------------------------
  // Phases and the transitions `setState` allows

  /** `SessionStateType`, a Go int with five named values. */
  type SessionStateType = int

  const InMenuType: SessionStateType := 0
  const WaitingRoomType: SessionStateType := 1
  const GameSelectionType: SessionStateType := 2
  const InGameType: SessionStateType := 3
  const EndGameType: SessionStateType := 4

  predicate IsStateType(t: SessionStateType) {
    InMenuType <= t <= EndGameType
  }

  /** `SessionStateType.String`. */
  function SessionStateTypeString(t: SessionStateType): (s: string)
    ensures s == "Unknown" <==> !IsStateType(t)
  {
    if t == InMenuType then "In Menu"
    else if t == WaitingRoomType then "Waiting Room"
    else if t == GameSelectionType then "Game Selection"
    else if t == InGameType then "In Game"
    else if t == EndGameType then "End Game"
    else "Unknown"
  }

  /** The five phases print with five different labels. */
  lemma SessionStateLabelsDistinct(a: SessionStateType, b: SessionStateType)
    requires IsStateType(a) && IsStateType(b) && a != b
    ensures SessionStateTypeString(a) != SessionStateTypeString(b)
  {
  }

  /**
    The transitions `setState` lets through: the menu from any phase, the
    waiting room from the menu or the end of a game, and every other phase
    from its one predecessor.
  */
  predicate CanEnter(from: SessionStateType, to: SessionStateType) {
    || to == InMenuType
    || (to == WaitingRoomType && (from == InMenuType || from == EndGameType))
    || (to == GameSelectionType && from == WaitingRoomType)
    || (to == InGameType && from == GameSelectionType)
    || (to == EndGameType && from == InGameType)
  }

  /** A handler either stays in its phase or makes a transition `setState` allows. */
  predicate Moves(from: SessionStateType, to: SessionStateType) {
    from == to || CanEnter(from, to)
  }

  /** What `setState` panics with when `to` may not follow `from`. */
  function TransitionPanic(to: SessionStateType, from: SessionStateType): string {
    (if to == WaitingRoomType then "Unexpected state when transitioning to waiting room: "
     else if to == GameSelectionType then "Unexpected state when transitioning to game selection: "
     else if to == InGameType then "Unexpected state when transitioning to in game: "
     else "Unexpected state when transitioning to end game: ")
    + SessionStateTypeString(from)
  }

  /** Go's message for a method called through a nil interface or a nil pointer. */
  const NilDereference := "runtime error: invalid memory address or nil pointer dereference"
  const RoomClosedText := "A player has quit, closing the room."
  const EmptyCodeText := "Please enter a code."
  const InvalidInputText := "invalid input"

  /** A game the client can ask for its type: a non-nil interface holding a non-nil engine. */
  predicate Usable(g: Option<Game>) {
    g.Some? && g.value.NonNil()
  }

  // ---------------------------------------------------------------------------
  // Keys and cursors

  predicate IsUp(key: string) { key == "up" || key == "k" || key == "w" }
  predicate IsDown(key: string) { key == "down" || key == "j" || key == "s" }
  predicate IsLeft(key: string) { key == "left" || key == "h" || key == "a" }
  predicate IsRight(key: string) { key == "right" || key == "l" || key == "d" }
  predicate IsArrow(key: string) { IsUp(key) || IsDown(key) || IsLeft(key) || IsRight(key) }
  predicate IsSelect(key: string) { key == "enter" || key == " " }
  predicate IsConcede(key: string) { key == "c" || key == "q" }
  predicate IsCancel(key: string) { key == "backspace" || key == "escape" }

  /** The largest row and column of each board. */
  const TicTacToeMax := 2
  const CheckersMax := 7

  predicate OnGrid(c: Vector, max: int) {
    0 <= c.x <= max && 0 <= c.y <= max
  }

  /**
    Where one key leaves a board cursor whose rows and columns run from 0 to
    `max` (up and down move the row Y, left and right the column X).
  */
  function MoveCursor(c: Vector, key: string, max: int): (r: Vector)
    ensures !IsArrow(key) ==> r == c
    ensures r.x == c.x || r.y == c.y
    ensures r.x > c.x ==> IsRight(key) && r.x == c.x + 1 <= max
    ensures r.x < c.x ==> IsLeft(key) && r.x == c.x - 1 >= 0
    ensures r.y > c.y ==> IsDown(key) && r.y == c.y + 1 <= max
    ensures r.y < c.y ==> IsUp(key) && r.y == c.y - 1 >= 0
    ensures IsUp(key) ==> (r != c <==> c.y > 0)
    ensures IsDown(key) ==> (r != c <==> c.y < max)
    ensures IsLeft(key) ==> (r != c <==> c.x > 0)
    ensures IsRight(key) ==> (r != c <==> c.x < max)
    ensures OnGrid(c, max) ==> OnGrid(r, max)
  {
    if IsUp(key) then (if c.y > 0 then c.(y := c.y - 1) else c)
    else if IsDown(key) then (if c.y < max then c.(y := c.y + 1) else c)
    else if IsLeft(key) then (if c.x > 0 then c.(x := c.x - 1) else c)
    else if IsRight(key) then (if c.x < max then c.(x := c.x + 1) else c)
    else c
  }

  /** A step away from the edge is undone by the opposite key. */
  lemma CursorStepsUndo(c: Vector, max: int)
    requires OnGrid(c, max)
    ensures c.y < max ==> MoveCursor(MoveCursor(c, "down", max), "up", max) == c
    ensures c.x < max ==> MoveCursor(MoveCursor(c, "right", max), "left", max) == c
  {
  }

  /** Where one key leaves the game-selection cursor over a list of `count` entries. */
  function MoveSelection(cursor: int, key: string, count: int): (r: int)
    ensures !IsUp(key) && !IsDown(key) ==> r == cursor
    ensures IsUp(key) ==> r == cursor - 1 || r == cursor
    ensures IsUp(key) ==> (r != cursor <==> cursor > 0)
    ensures IsDown(key) ==> r == cursor + 1 || r == cursor
    ensures IsDown(key) ==> (r != cursor <==> cursor < count - 1)
    ensures 0 <= cursor < count ==> 0 <= r < count
  {
    if IsUp(key) then (if cursor > 0 then cursor - 1 else cursor)
    else if IsDown(key) then (if cursor < count - 1 then cursor + 1 else cursor)
    else cursor
  }

  // ---------------------------------------------------------------------------
  // Commands and messages

  /**
    A Bubble Tea command returned by a handler. `SendConcede` and
    `SendCheckersTurn` stand for the two sends whose Go values (a
    `ClientConcede` message type, a `CheckersTurn` with piece coordinates) the
    message and engine packages do not declare.
  */
  datatype Cmd =
    | NoCmd                                                          // nil
    | QuitProgram                                                    // tea.Quit
    | Listen                                                         // session.ListenToServer()
    | Send(msg: ClientMessage)                                       // session.SendMsgToServer(msg)
    | SendConcede
    | SendCheckersTurn(pieceCoords: Vector, direction: Checkers.Direction)
    | ShowError(text: string)                                        // a command yielding ErrMsg

  /** The messages `Update` receives. */
  datatype TeaMsg =
    | KeyMsg(key: string)
    | ServerMsg(msg: ServerMessage, serverClosed: bool)
    | SentClientMsg
    | ErrMsg(text: string)

  /**
    What a key handler learns from code outside the model: the menu text
    box's value after the key, the outcome of dialing the server, and whether
    the player has a piece under the checkers cursor (`SquareHasPlayerPiece`,
    which the shown checkers engine does not define).
  */
  datatype KeyContext = KeyContext(text: string, dialError: Option<string>, hasOwnPiece: bool)

  /** A SendTurn message carrying a tic-tac-toe move at `coords`. */
  function TicTacToeTurnMessage(coords: Vector): (m: ClientMessage)
    ensures m.msgType == ClientSendTurn
    ensures GetGameTurn(m.turnAction) == Some(TicTacToeMove(TicTacToe.TicTacToeTurn(coords)))
  {
    TurnRoundTrip(TicTacToeMove(TicTacToe.TicTacToeTurn(coords)));
    ClientMessageOf(ClientSendTurn).(turnAction := NewGameTurnWrapper(Some(TicTacToeMove(TicTacToe.TicTacToeTurn(coords)))))
  }

  /** The error for a checkers selection on a square without one of the player's pieces. */
  function NoPieceText(c: Vector): string {
    "you do not have a piece at " + IntToString(c.y) + ", " + IntToString(c.x)
  }

  /** The checkers direction each move-mode key chooses. */
  function MoveDirection(key: string): (d: Option<Checkers.Direction>)
    ensures d.Some? ==> Checkers.IsDirection(d.value)
    ensures IsCancel(key) || IsConcede(key) ==> d.None?
  {
    if key == "e" then Some(Checkers.Left)
    else if key == "r" then Some(Checkers.Right)
    else if key == "d" then Some(Checkers.BackLeft)
    else if key == "f" then Some(Checkers.BackRight)
    else None
  }

  // ---------------------------------------------------------------------------
  // Phase objects

  /** `SessionStateInGameSelection`: the cursor over the selectable game types. */
  class GameSelectionState {
    var cursor: int
    const playerNum: int

    ghost predicate Valid()
      reads this
    {
      0 <= cursor < |GetGameTypes()|
    }

    /** `NewSessionStateInGameSelection`: the cursor on the first entry. */
    constructor (playerNum: int)
      ensures Valid() && cursor == 0 && this.playerNum == playerNum
    {
      cursor := 0;
      this.playerNum := playerNum;
    }

    /** What one key press does here: the cursor, and the command it answers with. */
    twostate predicate KeyHandled(key: string, sessionPlayerNumber: int, cmd: Cmd)
      requires old(Valid())
      reads this
    {
      && cursor == (if sessionPlayerNumber == 1 then MoveSelection(old(cursor), key, |GetGameTypes()|) else old(cursor))
      && (key == "q" ==> cmd == Send(ClientMessageOf(ClientQuitRoom)))
      && (sessionPlayerNumber == 1 && IsSelect(key) ==>
            cmd == Send(ClientMessageOf(ClientSelectGameType).(gameType := GetGameTypes()[old(cursor)])))
      && (key != "q" && !(sessionPlayerNumber == 1 && IsSelect(key)) ==> cmd == NoCmd)
    }

    /**
      `HandleUserInput` in game selection. Everyone may quit with q; only
      player 1 (as the session records it) moves the cursor and picks the
      game type under it.
    */
    method HandleUserInput(key: string, sessionPlayerNumber: int) returns (cmd: Cmd)
      requires Valid()
      modifies this
      ensures Valid()
      ensures KeyHandled(key, sessionPlayerNumber, cmd)
      ensures cmd.Send? && cmd.msg.msgType == ClientSelectGameType ==> cmd.msg.gameType == TicTacToeType
    {
      if sessionPlayerNumber != 1 {
        if key == "q" {
          return Send(ClientMessageOf(ClientQuitRoom));
        }
        return NoCmd;
      }
      if key == "q" {
        cmd := Send(ClientMessageOf(ClientQuitRoom));
      } else if IsUp(key) || IsDown(key) {
        // with a single entry the cursor cannot move, and neither bound test passes
        cursor := MoveSelection(cursor, key, |GetGameTypes()|);
        cmd := NoCmd;
      } else if IsSelect(key) {
        cmd := Send(ClientMessageOf(ClientSelectGameType).(gameType := GetGameTypes()[cursor]));
      } else {
        cmd := NoCmd;
      }
    }

    /**
      `handleServerMessage` in game selection: GameStarted unwraps the game,
      asks it for its type (which panics on a nil game), records the game, its
      type and the player on turn, and enters the game; RoomClosed goes back
      to the menu. The error for other messages reuses the waiting room's text.
    */
    method HandleServerMessage(s: Session, msg: ServerMessage) returns (r: Exec<Handled>)
      requires s.state == GameSelection(this)
      ensures msg.msgType == ServerGameStarted ==>
        && (r.Panic? <==> !Usable(GetGame(msg.game)))
        && (r.Panic? ==> r.message == NilDereference)
      ensures msg.msgType == ServerGameStarted && r.Done? ==>
        var g := GetGame(msg.game);
        && r.value.err == None && r.value.session.state.InGame?
        && r.value.session == s.(game := g, gameType := g.value.GameType(), playerTurn := msg.playerTurn,
                                 state := r.value.session.state)
        && fresh(r.value.session.state.play)
        && r.value.session.state.play.IsNew(s.playerNumber, msg.playerTurn, g)
      ensures msg.msgType == ServerRoomClosed ==> r == Done(Handled(HandleRoomClosure(s), None))
      ensures msg.msgType != ServerGameStarted && msg.msgType != ServerRoomClosed ==>
        r == Done(Handled(s, Some(Rejection(GameSelectionType, msg.msgType))))
      ensures r.Done? ==> HandledAs(GameSelectionType, s, msg, r.value)
      ensures r.Done? ==> PhaseObjectAs(GameSelectionType, s, msg, r.value.session.state)
    {
      if msg.msgType == ServerGameStarted {
        var g := GetGame(msg.game);
        if !Usable(g) {
          return Panic(NilDereference);
        }
        var s' := s.(game := g, gameType := g.value.GameType(), playerTurn := msg.playerTurn);
        var next := SetState(s', InGameType);
        r := Done(Handled(next.value, None));
      } else if msg.msgType == ServerRoomClosed {
        r := Done(Handled(HandleRoomClosure(s), None));
      } else {
        r := Done(Handled(s, Some(Rejection(GameSelectionType, msg.msgType))));
      }
    }
  }

  /** `SessionStateInGame`: the board cursor, the game as last reported, and the checkers move mode. */
  class InGameState {
    const playerNum: int
    var isPlayerTurn: bool
    var cursor: Vector
    var game: Option<Game>
    /** Set to (-1, -1) and never read or written again. */
    const selectedSquare: Vector
    var inMoveSelectMode: bool

    /** The cursor never leaves the larger (checkers) board. */
    ghost predicate Valid()
      reads this
    {
      OnGrid(cursor, CheckersMax)
    }

    /** The state `NewSessionStateInGame` builds from these arguments. */
    predicate IsNew(playerNum: int, playerTurn: int, game: Option<Game>)
      reads this
    {
      && this.playerNum == playerNum && isPlayerTurn == (playerNum == playerTurn)
      && cursor == Zero && this.game == game
      && selectedSquare == Vector(-1, -1) && !inMoveSelectMode
    }

    /** `NewSessionStateInGame`: the cursor at the top-left square, not in move mode. */
    constructor (playerNum: int, playerTurn: int, game: Option<Game>)
      ensures Valid() && IsNew(playerNum, playerTurn, game)
    {
      this.playerNum := playerNum;
      isPlayerTurn := playerNum == playerTurn;
      cursor := Zero;
      this.game := game;
      selectedSquare := Vector(-1, -1);
      inMoveSelectMode := false;
    }

    /**
      `handleTicTacToeInput`: c or q concedes, the arrow keys move the cursor
      within the 3x3 board, and enter or space sends the cursor as a move.
    */
    method HandleTicTacToeInput(key: string) returns (cmd: Cmd)
      requires Valid()
      modifies this
      ensures Valid()
      ensures game == old(game) && isPlayerTurn == old(isPlayerTurn) && inMoveSelectMode == old(inMoveSelectMode)
      ensures cursor == MoveCursor(old(cursor), key, TicTacToeMax)
      ensures IsConcede(key) ==> cmd == SendConcede
      ensures IsSelect(key) ==> cmd == Send(TicTacToeTurnMessage(old(cursor)))
      ensures !IsConcede(key) && !IsSelect(key) ==> cmd == NoCmd
    {
      cmd := NoCmd;
      if IsConcede(key) {
        cmd := SendConcede;
      } else if IsUp(key) {
        if cursor.y > 0 {
          cursor := cursor.(y := cursor.y - 1);
        }
      } else if IsDown(key) {
        if cursor.y < TicTacToeMax {
          cursor := cursor.(y := cursor.y + 1);
        }
      } else if IsLeft(key) {
        if cursor.x > 0 {
          cursor := cursor.(x := cursor.x - 1);
        }
      } else if IsRight(key) {
        if cursor.x < TicTacToeMax {
          cursor := cursor.(x := cursor.x + 1);
        }
      } else if IsSelect(key) {
        cmd := Send(TicTacToeTurnMessage(cursor));
      }
    }

    /**
      `handleCheckersInput` outside move mode: c or q concedes, the arrow keys
      move the cursor within the 8x8 board, and enter or space on one of the
      player's own pieces enters move mode (on any other square it reports
      the square).
    */
    method HandleBoardKey(key: string, hasOwnPiece: bool) returns (cmd: Cmd)
      requires Valid()
      modifies this
      ensures Valid()
      ensures game == old(game) && isPlayerTurn == old(isPlayerTurn)
      ensures cursor == MoveCursor(old(cursor), key, CheckersMax)
      ensures inMoveSelectMode <==> old(inMoveSelectMode) || (IsSelect(key) && hasOwnPiece)
      ensures IsConcede(key) ==> cmd == SendConcede
      ensures IsSelect(key) && !hasOwnPiece ==> cmd == ShowError(NoPieceText(cursor))
      ensures !IsConcede(key) && !(IsSelect(key) && !hasOwnPiece) ==> cmd == NoCmd
    {
      cmd := NoCmd;
      if IsConcede(key) {
        cmd := SendConcede;
      } else if IsUp(key) {
        if cursor.y > 0 {
          cursor := cursor.(y := cursor.y - 1);
        }
      } else if IsDown(key) {
        if cursor.y < CheckersMax {
          cursor := cursor.(y := cursor.y + 1);
        }
      } else if IsLeft(key) {
        if cursor.x > 0 {
          cursor := cursor.(x := cursor.x - 1);
        }
      } else if IsRight(key) {
        if cursor.x < CheckersMax {
          cursor := cursor.(x := cursor.x + 1);
        }
      } else if IsSelect(key) {
        if !hasOwnPiece {
          cmd := ShowError(NoPieceText(cursor));
        } else {
          inMoveSelectMode := true;
        }
      }
    }

    /**
      `handleCheckersInput` in move mode, as the source writes it. The cancel
      keys clear move mode but then fall out of the switch into the send, so
      a turn goes out with the direction variable still at its zero value,
      Left.
    */
    method HandleMoveKeyAsWritten(key: string) returns (cmd: Cmd)
      modifies this
      ensures cursor == old(cursor) && game == old(game) && isPlayerTurn == old(isPlayerTurn)
      ensures IsConcede(key) ==> cmd == SendConcede && inMoveSelectMode == old(inMoveSelectMode)
      ensures IsCancel(key) ==> cmd == SendCheckersTurn(cursor, Checkers.Left) && !inMoveSelectMode
      ensures IsCancel(key) ==> MoveDirection(key).None?
      ensures MoveDirection(key).Some? ==> cmd == SendCheckersTurn(cursor, MoveDirection(key).value) && !inMoveSelectMode
      ensures !IsConcede(key) && !IsCancel(key) && MoveDirection(key).None? ==>
        cmd == ShowError(InvalidInputText) && inMoveSelectMode == old(inMoveSelectMode)
    {
      var moveDirection := Checkers.Left;
      if IsConcede(key) {
        return SendConcede;
      } else if IsCancel(key) {
        inMoveSelectMode := false;
      } else if MoveDirection(key).Some? {
        moveDirection := MoveDirection(key).value;
      } else {
        return ShowError(InvalidInputText);
      }
      inMoveSelectMode := false;
      cmd := SendCheckersTurn(cursor, moveDirection);
    }

    /**
      `handleCheckersInput` in move mode, with the cancel keys only leaving
      move mode: a turn is sent only for a key that chose its direction.
    */
    method HandleMoveKey(key: string) returns (cmd: Cmd)
      modifies this
      ensures cursor == old(cursor) && game == old(game) && isPlayerTurn == old(isPlayerTurn)
      ensures IsConcede(key) ==> cmd == SendConcede && inMoveSelectMode == old(inMoveSelectMode)
      ensures IsCancel(key) ==> cmd == NoCmd && !inMoveSelectMode
      ensures MoveDirection(key).Some? ==> cmd == SendCheckersTurn(cursor, MoveDirection(key).value) && !inMoveSelectMode
      ensures !IsConcede(key) && !IsCancel(key) && MoveDirection(key).None? ==>
        cmd == ShowError(InvalidInputText) && inMoveSelectMode == old(inMoveSelectMode)
      ensures cmd.SendCheckersTurn? ==> MoveDirection(key) == Some(cmd.direction)
    {
      var moveDirection := Checkers.Left;
      if IsConcede(key) {
        return SendConcede;
      } else if IsCancel(key) {
        inMoveSelectMode := false;
        return NoCmd;
      } else if MoveDirection(key).Some? {
        moveDirection := MoveDirection(key).value;
      } else {
        return ShowError(InvalidInputText);
      }
      inMoveSelectMode := false;
      cmd := SendCheckersTurn(cursor, moveDirection);
    }

    /** `handleCheckersInput`: board keys outside move mode, move keys inside it. */
    method HandleCheckersInput(key: string, hasOwnPiece: bool) returns (cmd: Cmd)
      requires Valid()
      modifies this
      ensures Valid()
      ensures game == old(game) && isPlayerTurn == old(isPlayerTurn)
      ensures !old(inMoveSelectMode) ==>
        && cursor == MoveCursor(old(cursor), key, CheckersMax)
        && (inMoveSelectMode <==> IsSelect(key) && hasOwnPiece)
        && (IsConcede(key) ==> cmd == SendConcede)
        && (IsSelect(key) && !hasOwnPiece ==> cmd == ShowError(NoPieceText(cursor)))
        && (!IsConcede(key) && !(IsSelect(key) && !hasOwnPiece) ==> cmd == NoCmd)
      ensures old(inMoveSelectMode) ==>
        && cursor == old(cursor)
        && (IsConcede(key) ==> cmd == SendConcede && inMoveSelectMode)
        && (IsCancel(key) ==> cmd == NoCmd && !inMoveSelectMode)
        && (MoveDirection(key).Some? ==> cmd == SendCheckersTurn(cursor, MoveDirection(key).value) && !inMoveSelectMode)
        && (!IsConcede(key) && !IsCancel(key) && MoveDirection(key).None? ==> cmd == ShowError(InvalidInputText) && inMoveSelectMode)
      ensures cmd.SendCheckersTurn? ==> old(inMoveSelectMode) && MoveDirection(key) == Some(cmd.direction) && cmd.pieceCoords == cursor
    {
      if !inMoveSelectMode {
        cmd := HandleBoardKey(key, hasOwnPiece);
      } else {
        cmd := HandleMoveKey(key);
      }
    }

    /**
      What one key press does in game. A nil game panics and changes nothing.
      c or q concedes. Tic-tac-toe moves the cursor within its 3x3 board and
      sends the square under it on enter or space. Checkers, outside move
      mode, moves the cursor within its 8x8 board and enters move mode on one
      of the player's own pieces; in move mode a direction key sends the
      piece under the cursor that way and the cancel keys leave move mode.
    */
    twostate predicate KeyHandled(key: string, hasOwnPiece: bool, new r: Exec<Cmd>)
      reads this
    {
      && game == old(game) && isPlayerTurn == old(isPlayerTurn)
      && (r.Panic? <==> !Usable(game))
      && (r.Panic? ==> r.message == NilDereference && cursor == old(cursor) && inMoveSelectMode == old(inMoveSelectMode))
      && (Usable(game) && IsConcede(key) ==> r == Done(SendConcede))
      && (Usable(game) && game.value.TicTacToeGame? ==>
            && cursor == MoveCursor(old(cursor), key, TicTacToeMax) && inMoveSelectMode == old(inMoveSelectMode)
            && (IsSelect(key) ==> r == Done(Send(TicTacToeTurnMessage(old(cursor)))))
            && (!IsConcede(key) && !IsSelect(key) ==> r == Done(NoCmd)))
      && (Usable(game) && game.value.CheckersGame? && !old(inMoveSelectMode) ==>
            && cursor == MoveCursor(old(cursor), key, CheckersMax)
            && (inMoveSelectMode <==> IsSelect(key) && hasOwnPiece)
            && (IsSelect(key) && !hasOwnPiece ==> r == Done(ShowError(NoPieceText(cursor))))
            && (!IsConcede(key) && !(IsSelect(key) && !hasOwnPiece) ==> r == Done(NoCmd)))
      && (Usable(game) && game.value.CheckersGame? && old(inMoveSelectMode) ==>
            && cursor == old(cursor)
            && (IsConcede(key) ==> inMoveSelectMode)
            && (IsCancel(key) ==> r == Done(NoCmd) && !inMoveSelectMode)
            && (MoveDirection(key).Some? ==> r == Done(SendCheckersTurn(cursor, MoveDirection(key).value)) && !inMoveSelectMode)
            && (!IsConcede(key) && !IsCancel(key) && MoveDirection(key).None? ==>
                  r == Done(ShowError(InvalidInputText)) && inMoveSelectMode))
    }

    /**
      `HandleUserInput` in game: dispatch on the game's type, which panics
      when the game the session last received is nil.
    */
    method HandleUserInput(key: string, hasOwnPiece: bool) returns (r: Exec<Cmd>)
      requires Valid()
      modifies this
      ensures Valid()
      ensures KeyHandled(key, hasOwnPiece, r)
    {
      if !Usable(game) {
        return Panic(NilDereference);
      }
      if game.value.GameType() == TicTacToeType {
        var cmd := HandleTicTacToeInput(key);
        r := Done(cmd);
      } else {
        var cmd := HandleCheckersInput(key, hasOwnPiece);
        r := Done(cmd);
      }
    }

    /**
      `handleServerMessage` in game. An Error message is returned as the
      error. TurnResult replaces the session's game and player on turn and
      updates this state's copy of the game and whose turn it is. GameFinished
      records the game and the result and ends the game; RoomClosed goes back
      to the menu.
    */
    method HandleServerMessage(s: Session, msg: ServerMessage) returns (r: Handled)
      requires s.state == InGame(this) && Valid()
      modifies this
      ensures Valid()
      ensures cursor == old(cursor) && inMoveSelectMode == old(inMoveSelectMode)
      ensures msg.msgType != ServerTurnResult ==> game == old(game) && isPlayerTurn == old(isPlayerTurn)
      ensures msg.msgType == ServerError ==> r == Handled(s, Some(msg.errorMessage))
      ensures msg.msgType == ServerTurnResult ==>
        && r == Handled(s.(game := GetGame(msg.game), playerTurn := msg.playerTurn), None)
        && game == GetGame(msg.game)
        && (isPlayerTurn <==> msg.playerTurn == playerNum)
      ensures msg.msgType == ServerGameFinished ==>
        r == Handled(s.(game := GetGame(msg.game), gameResult := msg.gameResult,
                        state := EndGame(GetGame(msg.game), msg.gameResult, s.playerNumber)), None)
      ensures msg.msgType == ServerRoomClosed ==> r == Handled(HandleRoomClosure(s), None)
      ensures !Accepts(InGameType, msg.msgType) ==> r == Handled(s, Some(Rejection(InGameType, msg.msgType)))
      ensures HandledAs(InGameType, s, msg, r)
      ensures PhaseObjectAs(InGameType, s, msg, r.session.state)
    {
      if msg.msgType == ServerError {
        r := Handled(s, Some(msg.errorMessage));
      } else if msg.msgType == ServerTurnResult {
        var s' := s.(game := GetGame(msg.game), playerTurn := msg.playerTurn);
        game := s'.game;
        isPlayerTurn := s'.playerTurn == playerNum;
        r := Handled(s', None);
      } else if msg.msgType == ServerGameFinished {
        var s' := s.(game := GetGame(msg.game), gameResult := msg.gameResult);
        var next := SetState(s', EndGameType);
        r := Handled(next.value, None);
      } else if msg.msgType == ServerRoomClosed {
        r := Handled(HandleRoomClosure(s), None);
      } else {
        r := Handled(s, Some(Rejection(InGameType, msg.msgType)));
      }
    }
  }

  // ---------------------------------------------------------------------------
  // The session

  /**
    The `SessionState` interface: one case per phase. The menu's text box is
    the widget's business and is not kept here.
  */
  datatype SessionState =
    | InMenu
    | WaitingRoom(roomCode: string)
    | GameSelection(selection: GameSelectionState)
    | InGame(play: InGameState)
    | EndGame(game: Option<Game>, gameResult: GameResult, playerNum: int)
  {
    /** `GetType`. */
    function StateType(): (t: SessionStateType)
      ensures IsStateType(t)
    {
      match this
      case InMenu => InMenuType
      case WaitingRoom(_) => WaitingRoomType
      case GameSelection(_) => GameSelectionType
      case InGame(_) => InGameType
      case EndGame(_, _, _) => EndGameType
    }

    /** The phase object a key press or a message may update in place; value phases have none. */
    function Footprint(): set<object> {
      match this
      case GameSelection(sel) => {sel}
      case InGame(play) => {play}
      case _ => {}
    }

    ghost predicate Valid()
      reads Footprint()
    {
      match this
      case GameSelection(sel) => sel.Valid()
      case InGame(play) => play.Valid()
      case _ => true
    }
  }

  /** The `Session` struct without its transport fields (socket driver, channel, server URL). */
  datatype Session = Session(
    state: SessionState,
    roomCode: string,
    waitingForServerResponse: bool,
    errMsg: string,
    playerNumber: int,
    playerTurn: int,
    gameType: GameType,
    game: Option<Game>,
    gameResult: GameResult)

  /** `NewSession`: in the menu, with every other field at its zero value. */
  function NewSession(): (s: Session)
    ensures s.state.StateType() == InMenuType && s.state.Valid()
    ensures s.roomCode == "" && s.errMsg == "" && !s.waitingForServerResponse
    ensures s.game == None && s.playerNumber == 0
  {
    Session(InMenu, "", false, "", 0, 0, TicTacToeType, None, GameResultPlayerWin)
  }

  /** What a key handler returns: the session and a command. */
  datatype Reaction = Reaction(session: Session, cmd: Cmd)

  /** What a server-message handler returns: the session and an error, if any. */
  datatype Handled = Handled(session: Session, err: Option<string>)

  /** `setState(SessionStateTypeInMenu)`: allowed from every phase. */
  function EnterMenu(s: Session): (r: Session)
    ensures r.state.StateType() == InMenuType && r.state.Valid()
    ensures r.(state := s.state) == s
  {
    s.(state := InMenu)
  }

  /** `setState(SessionStateTypeWaitingRoom)`: from the menu or the end of a game, into the room last joined. */
  function EnterWaitingRoom(s: Session): (r: Exec<Session>)
    ensures r.Done? <==> CanEnter(s.state.StateType(), WaitingRoomType)
    ensures r.Done? ==> r.value == s.(state := WaitingRoom(s.roomCode))
    ensures r.Panic? ==> r.message == TransitionPanic(WaitingRoomType, s.state.StateType())
  {
    if s.state.StateType() == InMenuType || s.state.StateType() == EndGameType then
      Done(s.(state := WaitingRoom(s.roomCode)))
    else
      Panic(TransitionPanic(WaitingRoomType, s.state.StateType()))
  }

  /**
    `setState`: the new phase is built from the session's fields; a phase that
    may not follow the current one panics, and an unnamed target changes
    nothing.
  */
  method SetState(s: Session, target: SessionStateType) returns (r: Exec<Session>)
    ensures r.Panic? <==> IsStateType(target) && !CanEnter(s.state.StateType(), target)
    ensures r.Panic? ==> r.message == TransitionPanic(target, s.state.StateType())
    ensures r.Done? ==> r.value == s.(state := r.value.state)
    ensures r.Done? && IsStateType(target) ==> r.value.state.StateType() == target && r.value.state.Valid()
    ensures !IsStateType(target) ==> r == Done(s)
    ensures r.Done? && target == WaitingRoomType ==> r.value.state == WaitingRoom(s.roomCode)
    ensures r.Done? && target == GameSelectionType ==>
      && fresh(r.value.state.selection)
      && r.value.state.selection.cursor == 0 && r.value.state.selection.playerNum == s.playerNumber
    ensures r.Done? && target == InGameType ==>
      fresh(r.value.state.play) && r.value.state.play.IsNew(s.playerNumber, s.playerTurn, s.game)
    ensures r.Done? && target == EndGameType ==> r.value.state == EndGame(s.game, s.gameResult, s.playerNumber)
  {
    if target == InMenuType {
      r := Done(EnterMenu(s));
    } else if target == WaitingRoomType {
      r := EnterWaitingRoom(s);
    } else if target == GameSelectionType {
      if s.state.StateType() != WaitingRoomType {
        return Panic(TransitionPanic(target, s.state.StateType()));
      }
      var sel := new GameSelectionState(s.playerNumber);
      r := Done(s.(state := GameSelection(sel)));
    } else if target == InGameType {
      if s.state.StateType() != GameSelectionType {
        return Panic(TransitionPanic(target, s.state.StateType()));
      }
      var play := new InGameState(s.playerNumber, s.playerTurn, s.game);
      r := Done(s.(state := InGame(play)));
    } else if target == EndGameType {
      if s.state.StateType() != InGameType {
        return Panic(TransitionPanic(target, s.state.StateType()));
      }
      r := Done(s.(state := EndGame(s.game, s.gameResult, s.playerNumber)));
    } else {
      r := Done(s);
    }
  }

  /** `handleRoomClosure`: tell the player the room closed and go back to the menu. */
  function HandleRoomClosure(s: Session): (r: Session)
    ensures r.state.StateType() == InMenuType && r.errMsg == RoomClosedText
    ensures r.(state := s.state, errMsg := s.errMsg) == s
  {
    EnterMenu(s.(errMsg := RoomClosedText))
  }

  // ---------------------------------------------------------------------------
  // Server messages

  /** The server message types each phase's handler accepts; the rest are errors. */
  predicate Accepts(phase: SessionStateType, t: ServerMessageType) {
    if phase == InMenuType then t == ServerRoomJoined
    else if phase == WaitingRoomType then t == ServerRoomClosed || t == ServerEnteredGameSelection
    else if phase == GameSelectionType then t == ServerGameStarted || t == ServerRoomClosed
    else if phase == InGameType then
      t == ServerError || t == ServerTurnResult || t == ServerGameFinished || t == ServerRoomClosed
    else t == ServerRoomJoined || t == ServerRoomClosed
  }

  /** The error a phase returns for a message it does not accept; `%v` prints the type's label. */
  function Rejection(phase: SessionStateType, t: ServerMessageType): string {
    (if phase == InMenuType then "unexpected server message type whle in menu: "
     else if phase == WaitingRoomType || phase == GameSelectionType then
       "unexpected server message type whle in waiting room: "
     else if phase == InGameType then "unexpected server message type whle in game: "
     else "unexpected server message type while in game end: ")
    + ServerMessageTypeString(t)
  }

  /** The phase an accepted message leads to. */
  function NextPhase(phase: SessionStateType, t: ServerMessageType): SessionStateType {
    if t == ServerRoomClosed then InMenuType
    else if t == ServerRoomJoined then WaitingRoomType
    else if t == ServerEnteredGameSelection then GameSelectionType
    else if t == ServerGameStarted || t == ServerTurnResult then InGameType
    else if t == ServerGameFinished then EndGameType
    else phase
  }

  /** Where one server message leaves the phase, accepted or not. */
  function AfterMessage(phase: SessionStateType, t: ServerMessageType): SessionStateType {
    if Accepts(phase, t) then NextPhase(phase, t) else phase
  }

  /** The handlers' table agrees with `setState`'s guard: no accepted message asks for a forbidden transition. */
  lemma AcceptedMovesAreAllowed(phase: SessionStateType, t: ServerMessageType)
    requires IsStateType(phase)
    ensures Moves(phase, AfterMessage(phase, t))
  {
  }

  /** The phase after a run of server messages, each handled in turn. */
  function Drive(phase: SessionStateType, ts: seq<ServerMessageType>): SessionStateType
    decreases |ts|
  {
    if ts == [] then phase else Drive(AfterMessage(phase, ts[0]), ts[1..])
  }

  /** The client enters a game only through a GameStarted message it received in game selection. */
  lemma {:induction false} GameOnlyAfterStart(phase: SessionStateType, ts: seq<ServerMessageType>)
    requires IsStateType(phase) && phase != InGameType
    requires Drive(phase, ts) == InGameType
    ensures ServerGameStarted in ts
    decreases |ts|
  {
    var next := AfterMessage(phase, ts[0]);
    if next == InGameType {
      assert ts[0] == ServerGameStarted;
    } else {
      GameOnlyAfterStart(next, ts[1..]);
      assert ts == [ts[0]] + ts[1..];
    }
  }

  /**
    What every phase's handler promises about one server message: the phase
    moves as `AfterMessage` says, the room code and the waiting flag stay,
    a message the phase does not accept leaves the session as it was and
    comes back as an error, an accepted one is an error only when the
    server sent an error, and an error leaves the session as it was.
  */
  ghost predicate HandledAs(phase: SessionStateType, s: Session, msg: ServerMessage, h: Handled) {
    && h.session.roomCode == s.roomCode
    && h.session.waitingForServerResponse == s.waitingForServerResponse
    && h.session.state.StateType() == AfterMessage(phase, msg.msgType)
    && (!Accepts(phase, msg.msgType) ==> h == Handled(s, Some(Rejection(phase, msg.msgType))))
    && (Accepts(phase, msg.msgType) ==> (h.err.Some? <==> msg.msgType == ServerError))
    && (h.err.Some? ==> h.session == s)
    && (msg.msgType == ServerError && phase == InGameType ==> h == Handled(s, Some(msg.errorMessage)))
    && (msg.msgType == ServerRoomClosed && phase != InMenuType ==> h == Handled(HandleRoomClosure(s), None))
    && (msg.msgType == ServerRoomJoined && (phase == InMenuType || phase == EndGameType) ==>
          h == Handled(s.(playerNumber := msg.playerNumber, state := WaitingRoom(s.roomCode)), None))
    && (msg.msgType == ServerEnteredGameSelection && phase == WaitingRoomType ==>
          h.err == None && h.session == s.(state := h.session.state))
    && (msg.msgType == ServerGameStarted && phase == GameSelectionType ==>
          && Usable(GetGame(msg.game)) && h.err == None
          && h.session == s.(game := GetGame(msg.game), gameType := GetGame(msg.game).value.GameType(),
                             playerTurn := msg.playerTurn, state := h.session.state))
    && (msg.msgType == ServerTurnResult && phase == InGameType ==>
          h == Handled(s.(game := GetGame(msg.game), playerTurn := msg.playerTurn), None))
    && (msg.msgType == ServerGameFinished && phase == InGameType ==>
          h == Handled(s.(game := GetGame(msg.game), gameResult := msg.gameResult,
                          state := EndGame(GetGame(msg.game), msg.gameResult, s.playerNumber)), None))
  }

  /**
    What the handlers promise about the phase object a message leaves behind:
    game selection starts with the cursor on the first entry, a started game
    is set up from the message, and a turn result updates the game and whose
    turn it is.
  */
  ghost predicate PhaseObjectAs(phase: SessionStateType, s: Session, msg: ServerMessage, st: SessionState)
    reads st.Footprint()
  {
    && (msg.msgType == ServerEnteredGameSelection && phase == WaitingRoomType ==>
          st.GameSelection? && st.selection.cursor == 0 && st.selection.playerNum == s.playerNumber)
    && (msg.msgType == ServerGameStarted && phase == GameSelectionType ==>
          st.InGame? && st.play.IsNew(s.playerNumber, msg.playerTurn, GetGame(msg.game)))
    && (msg.msgType == ServerTurnResult && phase == InGameType ==>
          && st.InGame? && st.play.game == GetGame(msg.game)
          && (st.play.isPlayerTurn <==> msg.playerTurn == st.play.playerNum))
  }

  /**
    `handleServerMessage` in the menu: RoomJoined records the player number
    and enters the waiting room for the room code typed in.
  */
  function HandleMenuServerMessage(s: Session, msg: ServerMessage): (r: Handled)
    requires s.state.InMenu?
    ensures r.err.None? <==> msg.msgType == ServerRoomJoined
    ensures r.err.None? ==> r.session == s.(playerNumber := msg.playerNumber, state := WaitingRoom(s.roomCode))
    ensures r.err.Some? ==> r == Handled(s, Some(Rejection(InMenuType, msg.msgType)))
    ensures HandledAs(InMenuType, s, msg, r)
  {
    if msg.msgType == ServerRoomJoined then
      Handled(EnterWaitingRoom(s.(playerNumber := msg.playerNumber)).value, None)
    else
      Handled(s, Some(Rejection(InMenuType, msg.msgType)))
  }

  /** `handleServerMessage` in the waiting room: RoomClosed goes to the menu, EnteredGameSelection to game selection. */
  method HandleWaitingRoomServerMessage(s: Session, msg: ServerMessage) returns (r: Handled)
    requires s.state.WaitingRoom?
    ensures msg.msgType == ServerRoomClosed ==> r == Handled(HandleRoomClosure(s), None)
    ensures msg.msgType == ServerEnteredGameSelection ==>
      && r.err == None && r.session == s.(state := r.session.state) && r.session.state.GameSelection?
      && fresh(r.session.state.selection) && r.session.state.selection.cursor == 0
      && r.session.state.selection.playerNum == s.playerNumber
    ensures !Accepts(WaitingRoomType, msg.msgType) ==> r == Handled(s, Some(Rejection(WaitingRoomType, msg.msgType)))
    ensures HandledAs(WaitingRoomType, s, msg, r)
    ensures PhaseObjectAs(WaitingRoomType, s, msg, r.session.state)
  {
    if msg.msgType == ServerRoomClosed {
      r := Handled(HandleRoomClosure(s), None);
    } else if msg.msgType == ServerEnteredGameSelection {
      var next := SetState(s, GameSelectionType);
      r := Handled(next.value, None);
    } else {
      r := Handled(s, Some(Rejection(WaitingRoomType, msg.msgType)));
    }
  }

  /** `handleServerMessage` at the end of a game: RoomJoined re-enters the waiting room, RoomClosed the menu. */
  function HandleEndGameServerMessage(s: Session, msg: ServerMessage): (r: Handled)
    requires s.state.EndGame?
    ensures r.err.None? <==> Accepts(EndGameType, msg.msgType)
    ensures msg.msgType == ServerRoomJoined ==>
      r == Handled(s.(playerNumber := msg.playerNumber, state := WaitingRoom(s.roomCode)), None)
    ensures msg.msgType == ServerRoomClosed ==> r == Handled(HandleRoomClosure(s), None)
    ensures r.err.Some? ==> r == Handled(s, Some(Rejection(EndGameType, msg.msgType)))
    ensures HandledAs(EndGameType, s, msg, r)
  {
    if msg.msgType == ServerRoomJoined then
      Handled(EnterWaitingRoom(s.(playerNumber := msg.playerNumber)).value, None)
    else if msg.msgType == ServerRoomClosed then
      Handled(HandleRoomClosure(s), None)
    else
      Handled(s, Some(Rejection(EndGameType, msg.msgType)))
  }

  /**
    `session.state.handleServerMessage`: the current phase's handler. Every
    phase moves as `AfterMessage` says; a message the phase does not accept
    leaves the session as it was and comes back as an error.
  */
  method HandleServerMessage(s: Session, msg: ServerMessage) returns (r: Exec<Handled>)
    requires s.state.Valid()
    modifies s.state.Footprint()
    ensures r.Panic? <==> s.state.GameSelection? && msg.msgType == ServerGameStarted && !Usable(GetGame(msg.game))
    ensures r.Panic? ==> r.message == NilDereference
    ensures r.Done? ==> r.value.session.state.Valid()
    ensures r.Done? ==> HandledAs(s.state.StateType(), s, msg, r.value)
    ensures r.Done? ==> PhaseObjectAs(s.state.StateType(), s, msg, r.value.session.state)
  {
    match s.state
    case InMenu =>
      r := Done(HandleMenuServerMessage(s, msg));
    case WaitingRoom(_) =>
      var h := HandleWaitingRoomServerMessage(s, msg);
      r := Done(h);
    case GameSelection(sel) =>
      r := sel.HandleServerMessage(s, msg);
    case InGame(play) =>
      var h := play.HandleServerMessage(s, msg);
      r := Done(h);
    case EndGame(_, _, _) =>
      r := Done(HandleEndGameServerMessage(s, msg));
  }

  // ---------------------------------------------------------------------------
  // Key presses

  /**
    `HandleUserInput` in the menu: enter with an empty code is refused; with
    a code it dials the server, and on success remembers the code and asks
    to join that room.
  */
  function HandleMenuInput(s: Session, key: string, ctx: KeyContext): (r: Reaction)
    requires s.state.InMenu?
    ensures r.session == s || (r.session == s.(roomCode := ctx.text) && key == "enter")
    ensures key != "enter" ==> r == Reaction(s, NoCmd)
    ensures key == "enter" && ctx.text == "" ==> r == Reaction(s, ShowError(EmptyCodeText))
    ensures key == "enter" && ctx.text != "" && ctx.dialError.Some? ==>
      r == Reaction(s, ShowError("error starting WS: " + ctx.dialError.value))
    ensures r.cmd.Send? <==> key == "enter" && ctx.text != "" && ctx.dialError.None?
    ensures r.cmd.Send? ==>
      && r.cmd.msg == ClientMessageOf(ClientJoinRoom).(roomCode := ctx.text)
      && r.cmd.msg.roomCode != "" && r.session.roomCode == r.cmd.msg.roomCode
  {
    if key != "enter" then Reaction(s, NoCmd)
    else if ctx.text == "" then Reaction(s, ShowError(EmptyCodeText))
    else if ctx.dialError.Some? then Reaction(s, ShowError("error starting WS: " + ctx.dialError.value))
    else
      var s' := s.(roomCode := ctx.text);
      Reaction(s', Send(ClientMessageOf(ClientJoinRoom).(roomCode := s'.roomCode)))
  }

  /** `HandleUserInput` in the waiting room: only q does anything, and it asks to leave the room. */
  function HandleWaitingRoomInput(key: string): (cmd: Cmd)
    ensures cmd != NoCmd <==> key == "q"
    ensures cmd != NoCmd ==> cmd == Send(ClientMessageOf(ClientQuitRoom))
  {
    if key == "q" then Send(ClientMessageOf(ClientQuitRoom)) else NoCmd
  }

  /** `HandleUserInput` at the end of a game: y rejoins the same room, n or q leaves it. */
  function HandleEndGameInput(s: Session, key: string): (cmd: Cmd)
    ensures key == "y" ==> cmd == Send(ClientMessageOf(ClientJoinRoom).(roomCode := s.roomCode))
    ensures key == "n" || key == "q" ==> cmd == Send(ClientMessageOf(ClientQuitRoom))
    ensures cmd == NoCmd <==> key != "y" && key != "n" && key != "q"
    ensures cmd.Send? && cmd.msg.msgType == ClientJoinRoom ==> cmd.msg.roomCode == s.roomCode
  {
    if key == "y" then Send(ClientMessageOf(ClientJoinRoom).(roomCode := s.roomCode))
    else if key == "n" || key == "q" then Send(ClientMessageOf(ClientQuitRoom))
    else NoCmd
  }

  /**
    What one key press does to the session: only the menu changes the session
    value (its room code), and each phase answers as its own handler says,
    the selection and in-game phases updating their own objects.
  */
  twostate predicate InputHandled(s: Session, key: string, ctx: KeyContext, new r: Exec<Reaction>)
    requires old(s.state.Valid())
    reads s.state.Footprint()
  {
    && (r.Done? && !s.state.InMenu? ==> r.value.session == s)
    && match s.state
       case InMenu => r == Done(HandleMenuInput(s, key, ctx))
       case WaitingRoom(_) => r == Done(Reaction(s, HandleWaitingRoomInput(key)))
       case GameSelection(sel) => r.Done? && sel.KeyHandled(key, s.playerNumber, r.value.cmd)
       case InGame(play) => play.KeyHandled(key, ctx.hasOwnPiece, if r.Panic? then Panic(r.message) else Done(r.value.cmd))
       case EndGame(_, _, _) => r == Done(Reaction(s, HandleEndGameInput(s, key)))
  }

  /** `session.state.HandleUserInput`: the current phase's key handler. */
  method HandleUserInput(s: Session, key: string, ctx: KeyContext) returns (r: Exec<Reaction>)
    requires s.state.Valid()
    modifies s.state.Footprint()
    ensures r.Panic? <==> s.state.InGame? && !Usable(s.state.play.game)
    ensures r.Panic? ==> r.message == NilDereference
    ensures s.state.Valid()
    ensures InputHandled(s, key, ctx, r)
  {
    match s.state
    case InMenu =>
      r := Done(HandleMenuInput(s, key, ctx));
    case WaitingRoom(_) =>
      r := Done(Reaction(s, HandleWaitingRoomInput(key)));
    case GameSelection(sel) =>
      var cmd := sel.HandleUserInput(key, s.playerNumber);
      r := Done(Reaction(s, cmd));
    case InGame(play) =>
      var e := play.HandleUserInput(key, ctx.hasOwnPiece);
      if e.Panic? {
        r := Panic(e.message);
      } else {
        r := Done(Reaction(s, e.value));
      }
    case EndGame(_, _, _) =>
      r := Done(Reaction(s, HandleEndGameInput(s, key)));
  }

  // ---------------------------------------------------------------------------
  // Update

  /** The session `Update` keeps after a handler: the handler's error, if any, on the error line. */
  function ErrorLine(h: Handled): Session {
    if h.err.Some? then h.session.(errMsg := h.err.value) else h.session
  }

  /**
    What showing a handler's error leaves: a refused message or a server
    error puts its text on the error line of the session as it was, and an
    accepted message without an error leaves the handler's session.
  */
  lemma ErrorLineAs(phase: SessionStateType, s: Session, m: ServerMessage, h: Handled)
    requires HandledAs(phase, s, m, h)
    ensures ErrorLine(h).waitingForServerResponse == s.waitingForServerResponse
    ensures ErrorLine(h).state.StateType() == AfterMessage(phase, m.msgType)
    ensures !Accepts(phase, m.msgType) ==> ErrorLine(h) == s.(errMsg := Rejection(phase, m.msgType))
    ensures phase == InGameType && m.msgType == ServerError ==> ErrorLine(h) == s.(errMsg := m.errorMessage)
    ensures Accepts(phase, m.msgType) && m.msgType != ServerError ==>
      ErrorLine(h) == h.session && HandledAs(phase, s, m, Handled(ErrorLine(h), None))
  {
  }

  /**
    The part of `Update` that hands a server message to the phase's handler:
    the handler's error, if any, becomes the error line, and the session
    listens again.
  */
  method ReceiveServerMessage(s: Session, m: ServerMessage) returns (r: Exec<Reaction>)
    requires s.state.Valid()
    modifies s.state.Footprint()
    ensures r.Panic? <==> s.state.GameSelection? && m.msgType == ServerGameStarted && !Usable(GetGame(m.game))
    ensures r.Panic? ==> r.message == NilDereference
    ensures r.Done? ==> r.value.session.state.Valid() && r.value.cmd == Listen
    ensures r.Done? ==> r.value.session.waitingForServerResponse == s.waitingForServerResponse
    ensures r.Done? ==> r.value.session.state.StateType() == AfterMessage(s.state.StateType(), m.msgType)
    ensures !Accepts(s.state.StateType(), m.msgType) ==>
      r == Done(Reaction(s.(errMsg := Rejection(s.state.StateType(), m.msgType)), Listen))
    ensures s.state.InGame? && m.msgType == ServerError ==> r == Done(Reaction(s.(errMsg := m.errorMessage), Listen))
    ensures r.Done? && Accepts(s.state.StateType(), m.msgType) && m.msgType != ServerError ==>
      && HandledAs(s.state.StateType(), s, m, Handled(r.value.session, None))
      && PhaseObjectAs(s.state.StateType(), s, m, r.value.session.state)
  {
    var h := HandleServerMessage(s, m);
    if h.Panic? {
      return Panic(h.message);
    }
    ErrorLineAs(s.state.StateType(), s, m, h.value);
    r := Done(Reaction(ErrorLine(h.value), Listen));
  }

  /**
    `Update`: a key clears the error line and goes to the phase's key handler
    (ctrl+c quits); a server message clears the waiting flag, then either
    returns to the menu (the server closed) or goes to the phase's handler,
    whose error becomes the error line, and listens again; a sent message
    sets the waiting flag; an error message becomes the error line.
  */
  method Update(s: Session, msg: TeaMsg, ctx: KeyContext) returns (r: Exec<Reaction>)
    requires s.state.Valid()
    modifies s.state.Footprint()
    ensures r.Done? ==> r.value.session.state.Valid()
    ensures r.Panic? ==> r.message == NilDereference
    ensures r.Done? ==> Moves(s.state.StateType(), r.value.session.state.StateType())
    ensures msg.KeyMsg? && r.Done? ==> r.value.session.errMsg == "" && r.value.session.state == s.state
    ensures msg.KeyMsg? && msg.key == "ctrl+c" ==> r == Done(Reaction(s.(errMsg := ""), QuitProgram))
    ensures msg.KeyMsg? && msg.key != "ctrl+c" ==> InputHandled(s.(errMsg := ""), msg.key, ctx, r)
    ensures msg.ServerMsg? && r.Done? ==> !r.value.session.waitingForServerResponse && r.value.cmd == Listen
    ensures msg.ServerMsg? && msg.serverClosed ==>
      r == Done(Reaction(EnterMenu(s.(waitingForServerResponse := false)), Listen))
    ensures msg.ServerMsg? && !msg.serverClosed && r.Done? ==>
      r.value.session.state.StateType() == AfterMessage(s.state.StateType(), msg.msg.msgType)
    ensures msg.ServerMsg? && !msg.serverClosed ==>
      (r.Panic? <==> s.state.GameSelection? && msg.msg.msgType == ServerGameStarted && !Usable(GetGame(msg.msg.game)))
    ensures msg.ServerMsg? && !msg.serverClosed && !Accepts(s.state.StateType(), msg.msg.msgType) ==>
      r == Done(Reaction(s.(waitingForServerResponse := false,
                            errMsg := Rejection(s.state.StateType(), msg.msg.msgType)), Listen))
    ensures msg.ServerMsg? && !msg.serverClosed && s.state.InGame? && msg.msg.msgType == ServerError ==>
      r == Done(Reaction(s.(waitingForServerResponse := false, errMsg := msg.msg.errorMessage), Listen))
    ensures msg.ServerMsg? && !msg.serverClosed && r.Done? &&
            Accepts(s.state.StateType(), msg.msg.msgType) && msg.msg.msgType != ServerError ==>
      && HandledAs(s.state.StateType(), s.(waitingForServerResponse := false), msg.msg, Handled(r.value.session, None))
      && PhaseObjectAs(s.state.StateType(), s.(waitingForServerResponse := false), msg.msg, r.value.session.state)
    ensures msg.SentClientMsg? ==> r == Done(Reaction(s.(waitingForServerResponse := true), NoCmd))
    ensures msg.ErrMsg? ==> r == Done(Reaction(s.(errMsg := msg.text), NoCmd))
  {
    match msg
    case KeyMsg(key) =>
      var s' := s.(errMsg := "");
      if key == "ctrl+c" {
        return Done(Reaction(s', QuitProgram));
      }
      r := HandleUserInput(s', key, ctx);
    case ServerMsg(m, serverClosed) =>
      var s' := s.(waitingForServerResponse := false);
      if serverClosed {
        var next := SetState(s', InMenuType);
        return Done(Reaction(next.value, Listen));
      }
      r := ReceiveServerMessage(s', m);
    case SentClientMsg =>
      r := Done(Reaction(s.(waitingForServerResponse := true), NoCmd));
    case ErrMsg(text) =>
      r := Done(Reaction(s.(errMsg := text), NoCmd));
  }
}
