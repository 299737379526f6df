# ascii-arcade-2 in Dafny

A model of the turn-based terminal game system ascii-arcade-2. The system has
three parts: a client and a server that talk through JSON messages, and the
game engines they share. The model covers each part:

- **Engines** (`internal/game`, `internal/tictactoe`): tic-tac-toe and
  checkers boards as classes over two-dimensional arrays. Move validation is
  a function of the board. Execution updates the board in place and is
  proved against the board it must produce. The tic-tac-toe status scan is
  a loop proved equal to a declarative status function, and lemmas tie that
  function to complete lines.
- **Message wrappers** (`internal/messages`): the tagged game and
  turn wrappers, with their round trips and the cases where a nil value does
  not round-trip.
- **Server** (`server/hub.go`, `server/room.go`, `server/player.go`):
  - the hub's map from room code to room;
  - the room's three-state join and turn protocol;
  - the player's four-state relay.

  Every channel send is an append to an outbox sequence, so each handler's
  contract states the exact messages it sends, in order.
- **Client** (`session.go`, `commands.go`, `repl.go`):
  - the session state machine. Its states are `SessionState` values; the
    game-selection and in-game states are objects updated in place.
  - the keyboard handlers, the server-message handlers and the `Update`
    dispatcher;
  - the text commands that build client messages;
  - the REPL's line cleaning (`strings.ToLower` then `strings.Fields`).

Go panics come in two kinds:
- A panic the caller causes (an off-board index into an engine) is a
  precondition.
- A panic the data causes (a nil game in a message, a bounds test that
  lets a bad index through) is an `Exec.Panic` outcome carrying Go's
  message.

Go's `int` enums are Dafny `int`s with named constants, so unknown values
stay representable. Integer parsing follows `strconv.ParseInt(s, 10, 32)`.

## Model

| member | source | states |
|---|---|---|
| Vectors.VectorVar.Add | internal/vector/vector.go:8-11 | the receiver becomes the componentwise sum; the argument is a copy and is untouched |
| Vectors.AddZeroKeepsValue | internal/vector/vector.go:8-11 | adding the zero vector leaves the receiver's value unchanged |
| GameKinds.GameTypeString | internal/game/game.go:16-25 | "TicTacToe" and "Checkers" for the two named types; "Unknown" exactly for every other value |
| GameKinds.GameTypesOffered | internal/game/game.go:12-14 | the selectable list is exactly [tic-tac-toe]; checkers is not in it |
| Games.Game.GameType | internal/game/game.go:36-44 | each engine reports its own game type |
| Games.GameTurn.GameType | internal/game/game.go:46-49 | a turn reports tic-tac-toe iff it is a tic-tac-toe move, checkers iff it is a checkers move |
| Games.NewGame | internal/game/game.go:50-60 | a fresh engine of the requested type for the two known types, nil for any other; a returned game reports the requested type |
| Games.ValidateTurn | internal/game/game.go:41 | `ValidateMove` through the `Game` interface: the type assertions at internal/game/tic_tac_toe.go:45-49 and internal/game/checkers.go:110-113 panic with the engine's message iff the turn is nil or of the other game's type; otherwise the engine's verdict (tic-tac-toe with the corrected column bound, see Findings) |
| Games.ExecuteTurn | internal/game/game.go:42 | `ExecuteTurn` through the `Game` interface: the type assertions at internal/game/tic_tac_toe.go:74-78 and internal/game/checkers.go:166-169 give the same panic, leaving the game untouched; otherwise the mark is placed, no other square changes and the status is recomputed (tic-tac-toe); for checkers, with the corrected capture (see Findings), the piece lands on its target or beyond the captured piece, no square off the origin, target and landing changes, and the status follows the counts |
| Messages.GetGame | internal/messages/messages.go:19-28 | nil exactly for an unknown tag; tag 0 gives the wrapper's tic-tac-toe pointer and tag 1 its checkers pointer, each as a `Game` value |
| Messages.NewGameWrapper | internal/messages/messages.go:30-45 | nil gives the zero wrapper; otherwise the tag is the game's type and only that engine's pointer is set |
| Messages.GameRoundTrip | internal/messages/messages.go:19-45 | unwrapping a wrapped game gives the same game, for both engines |
| Messages.NilGameUnwrapsToTypedNil | internal/messages/messages.go:19-33 | a wrapped nil game unwraps to a nil tic-tac-toe pointer, not to nil |
| Messages.GetGameTurn | internal/messages/messages.go:102-111 | nil exactly for an unknown tag; otherwise a turn whose type equals the tag, and that turn is the wrapper's field for the tag |
| Messages.NewGameTurnWrapper | internal/messages/messages.go:113-128 | nil gives the zero wrapper; otherwise the tag is the turn's type and that turn's field holds it |
| Messages.TurnRoundTrip | internal/messages/messages.go:102-128 | unwrapping a wrapped turn gives the same turn, for both games |
| Messages.NilTurnUnwrapsToCornerMove | internal/messages/messages.go:102-116 | a wrapped nil turn unwraps to a tic-tac-toe move at (0, 0) |
| Messages.ServerMessageTypeString | internal/messages/messages.go:61-84 | "Unknown" exactly outside the nine named types |
| Messages.ServerMessageTypeLabelsDistinct | internal/messages/messages.go:61-84 | the nine named types print with pairwise different labels |
| Messages.ServerMessageOf | internal/messages/messages.go:86-94 | a server message of the given type with every other field at Go's zero value |
| Messages.ClientMessageOf | internal/messages/messages.go:140-145 | a client message of the given type with every other field at Go's zero value |
| Strconv.ParseInt32 | commands.go:162 | succeeds iff the text is an optional sign followed by at least one decimal digit (`WellFormedDecimal`) and its signed value lies in the 32-bit range; the result is that signed value |
| Strconv.ParseIntOfIntToString | commands.go:162-167 | every 32-bit integer printed in decimal parses back to itself |
| TicTacToe.MarkOf | internal/game/tic_tac_toe.go:74-89 | O exactly for player 2, X for every other player number |
| TicTacToe.FirstWinnerFinds | internal/game/tic_tac_toe.go:195-263 | the scan reports no winner iff no remaining line is complete; otherwise the mark of a complete line |
| TicTacToe.WinHasLine | internal/game/tic_tac_toe.go:195-263 | a win for player 1 (2) is backed by a complete line of X (O) |
| TicTacToe.SoleLineWins | internal/game/tic_tac_toe.go:195-263 | when only one mark has a complete line, that player wins |
| TicTacToe.DrawIffFullWithoutLine | internal/game/tic_tac_toe.go:195-263 | Draw iff no line and no empty square; Ongoing iff no line and some empty square |
| TicTacToe.TicTacToeGame.constructor | internal/game/tic_tac_toe.go:24-31 | a fresh all-empty board with status Ongoing |
| TicTacToe.TicTacToeGame.ValidateMoveAsWritten | internal/game/tic_tac_toe.go:45-63 | as written: panics exactly when the row is on the board and the column is above 2, with Go's runtime text for that column index into a row of length 3; on the board it agrees with the corrected check |
| TicTacToe.TicTacToeGame.ValidateMove | internal/game/tic_tac_toe.go:45-63 | accepted iff the square is on the board and empty; the reason is empty iff accepted; off-board and taken squares give their reasons |
| TicTacToe.TicTacToeGame.CheckGameStatus | internal/game/tic_tac_toe.go:195-263 | the row, column, diagonal and full-board loops compute exactly `StatusOf` of the board |
| TicTacToe.TicTacToeGame.ExecuteTurn | internal/game/tic_tac_toe.go:74-89 | the square gets the player's mark, no other square changes, the status is recomputed from the new board |
| TicTacToe.ColumnBoundMissed | internal/game/tic_tac_toe.go:53 | the column (3, row 0) passes the bounds test as written and panics with "runtime error: index out of range [3] with length 3"; the corrected check refuses it as out of bounds |
| LegacyTicTacToe.TicTacToeGame.constructor | internal/tictactoe/tic_tac_toe.go:31-39 | an empty board, X to move, the game ongoing |
| LegacyTicTacToe.TicTacToeGame.ValidateMoveAsWritten | internal/tictactoe/tic_tac_toe.go:41-50 | as written: false off the board except that a column above 2 on a valid row panics, with Go's runtime text for that column index |
| LegacyTicTacToe.TicTacToeGame.ValidateMove | internal/tictactoe/tic_tac_toe.go:41-50 | true iff the square is on the board and empty |
| LegacyTicTacToe.TicTacToeGame.ExecuteTurn | internal/tictactoe/tic_tac_toe.go:52-61 | the square gets O for player 2 and X otherwise; nothing else on the board, the turn flag or the status changes |
| LegacyTicTacToe.ExecutedSquareIsTaken | internal/tictactoe/tic_tac_toe.go:41-61 | a filled square no longer validates |
| LegacyTicTacToe.ColumnBoundMissed | internal/tictactoe/tic_tac_toe.go:43 | (3, 0) panics in the check as written with "runtime error: index out of range [3] with length 3"; the corrected check refuses it |
| Checkers.Mirror | internal/game/checkers.go:311-323 | always a named direction; an unnamed direction becomes Left |
| Checkers.MirrorInvolution | internal/game/checkers.go:311-323 | mirroring twice gives every named direction back |
| Checkers.ApplyMoveIsDiagonalStep | internal/game/checkers.go:325-351 | a named direction moves one square diagonally; the mirrored direction steps back |
| Checkers.InitialLayout | internal/game/checkers.go:27-76 | black fills the dark squares of rows 0-2, white those of rows 5-7, no piece starts as a king |
| Checkers.InitialIDsArePlaced | internal/game/checkers.go:27-76 | every starting ID stands on its starting square with that ID |
| Checkers.InitialPiecesAreListed | internal/game/checkers.go:27-76 | every piece on the starting board has a starting ID that maps back to its square |
| Checkers.StatusFromCounts | internal/game/checkers.go:378-388 | player 2 wins iff white has no pieces; player 1 iff white has some and black none; otherwise ongoing |
| Checkers.CheckersGame.constructor | internal/game/checkers.go:27-76 | the nested loops give the starting layout, 12 pieces a side, positions for exactly the starting IDs |
| Checkers.CheckersGame.ValidateMove | internal/game/checkers.go:109-163 | accepted iff `CanMove` (piece exists, only kings go backward, a plain step or a jump); the reason is empty iff accepted; each rejection gives the text of the first broken rule: missing piece, backward non-king, target off the board, target of the mover's colour, capture landing off the board, capture landing occupied |
| Checkers.CheckersGame.CapturePiece | internal/game/checkers.go:362-376 | the square is emptied, its ID dropped, and the count of its colour decremented; nothing else changes |
| Checkers.CheckersGame.MovePiece | internal/game/checkers.go:205-207 | the piece moves to the empty square, its position is updated, counts and status unchanged |
| Checkers.CheckersGame.ExecuteTurnAsWritten | internal/game/checkers.go:165-210 | as written: a capture removes the captured piece and returns, leaving the mover in place and the status stale; a plain step moves the piece and recomputes the status |
| Checkers.CheckersGame.ExecuteTurn | internal/game/checkers.go:165-210 | a capture removes the captured piece and lands the mover beyond it; every move recomputes the status from the counts; nothing else on the board changes |
| Checkers.NonKingMovesForward | internal/game/checkers.go:109-163 | a valid move of a non-king goes toward row 7 for player 2 and toward row 0 otherwise |
| Checkers.UnnamedDirectionMovesBlackBackward | internal/game/checkers.go:311-323 | an unnamed direction from player 2 passes validation as Left and moves a black piece toward row 0 |
| Checkers.CaptureLeavesMoverInPlace | internal/game/checkers.go:195-203 | after a capture as written the mover still stands on its square and the landing square is empty |
| Rooms.NextTurn | server/room.go:45-51 | player 1 hands over to 2, every other value to 1 |
| Rooms.TurnsAlternate | server/room.go:45-51 | the turn always changes, and two hand-overs give it back |
| Rooms.Room.constructor | server/room.go:29-39 | a room with the given code waits for player 1 with nothing sent |
| Rooms.Room.AdvanceTurn | server/room.go:45-51 | the turn becomes `NextTurn` of the old one; nothing else changes |
| Rooms.Room.HandleJoinRequest | server/room.go:81-141 | first join: RoomJoined{1}; second: RoomJoined{2}, a fresh game, GameStarted to player 1 then 2, running; a running room refuses the join and sends nothing |
| Rooms.Room.ReceiveJoinRequest | server/room.go:57-63 | the loop stops exactly when the join is refused |
| Rooms.Room.HandlePlayerMessage | server/room.go:92-167 | waiting rooms panic (or ignore player 2); off-turn messages are refused; a SendTurn on turn marks the square, hands over the turn and sends TurnResult to both players, and an off-board square panics with Go's runtime text for the first bad index of `Board[Y][X]` (the row before the column; a negative index without the length) |
| Rooms.NoDoubleTurn | server/room.go:143-167 | after the player on turn moves, a second message from that player is refused with the not-your-turn error; the board differs only at the first move's square, the turn stays with the other player, and exactly the first move's two TurnResult deliveries were sent |
| Hubs.Hub.constructor | server/hub.go:28-33 | an empty registry with nothing sent |
| Hubs.Hub.HandleRoomRequest | server/hub.go:38-47 | an existing room for the code is reused, otherwise a fresh room is registered; the request is forwarded to that room |
| Hubs.Hub.HandleClose | server/hub.go:48-56 | a registered code has its room's requests closed and is removed; an unknown code changes nothing |
| Hubs.ReopenAfterClose | server/hub.go:38-56 | after a close, the next request for the code is served by a brand-new room |
| Players.Player.constructor | server/player.go:40-55 | not in a room, no room channels, nothing sent |
| Players.Player.HandleClientMessage | server/player.go:136-265 | JoinRoom outside a room makes fresh room channels and asks the hub; the types a state forwards go to the room; anything else is refused with the state's text; the state never changes |
| Players.Player.WriteToClient | server/player.go:122-125 | the message is sent to the client and the write's own error is returned |
| Players.Player.HandleRoomMessage | server/player.go:161-283 | each state relays, advances by at most one state, or refuses with its text; GameFinished ends the player past NotInRoom |
| Players.Player.ReceiveClientMessage | server/player.go:74-78 | the loop stops exactly when the handler refuses the message |
| Players.Player.ReceiveRoomMessage | server/player.go:89-93 | the loop stops iff the handler returns an error, which is iff the state refuses the message (`RoomAccepts`) or a checked write fails (`RoomRelays`); a player that keeps going advances one state; the player number, the messages written to the client (`WritesToClient`) and the unchanged room and hub outboxes are stated |
| Players.Player.ClientClosed | server/player.go:62-72 | a QuitRoom goes to the room if there is one, and the player stops |
| Players.Player.RoomClosed | server/player.go:80-87 | the client is told RoomDisconnected and the player stops |
| Sessions.SessionStateTypeString | session.go:234-249 | "Unknown" exactly for values outside the five states |
| Sessions.SessionStateLabelsDistinct | session.go:234-249 | the five states print with pairwise different labels |
| Sessions.MoveCursor | session.go:577-592 | an arrow key moves one square on its own axis unless at the edge; other keys do nothing; the cursor stays on the grid |
| Sessions.CursorStepsUndo | session.go:577-592 | down then up, and right then left, return to the same square away from the edge |
| Sessions.MoveSelection | session.go:441-448 | up and down move one entry unless at the ends; the selection stays within the list |
| Sessions.TicTacToeTurnMessage | session.go:594-600 | a SendTurn message whose turn unwraps to the tic-tac-toe move at the cursor |
| Sessions.MoveDirection | session.go:646-654 | e, r, d, f name the four directions; cancel and concede keys name none |
| Sessions.GameSelectionState.constructor | session.go:417-422 | the cursor starts on the first entry |
| Sessions.GameSelectionState.HandleUserInput | session.go:424-459 | `KeyHandled`: only player 1 moves the selection, within the list, or selects the game type under the cursor; q quits for anyone; every other key sends nothing; a selection is always tic-tac-toe |
| Sessions.GameSelectionState.HandleServerMessage | session.go:523-536 | GameStarted panics iff its game is nil, otherwise records the game and turn and enters the game; RoomClosed returns to the menu; others are refused |
| Sessions.InGameState.constructor | session.go:551-559 | it is the player's turn iff the player number is the one on turn; cursor at (0, 0), selected square (-1, -1), not in move mode |
| Sessions.InGameState.HandleTicTacToeInput | session.go:572-604 | arrows move the cursor within 3x3, c/q concede, enter sends the move at the cursor |
| Sessions.InGameState.HandleBoardKey | session.go:607-636 | arrows move the cursor within 8x8; enter on an own piece enters move mode, on any other square reports the square |
| Sessions.InGameState.HandleMoveKeyAsWritten | session.go:638-667 | as written: backspace or escape leaves move mode and still sends a turn with direction Left |
| Sessions.InGameState.HandleMoveKey | session.go:638-667 | a direction key sends that direction for the cursor's piece; cancel leaves move mode and sends nothing; other keys report invalid input |
| Sessions.InGameState.HandleCheckersInput | session.go:606-670 | with the intended cancel of the Findings row for session.go:645-667 (`HandleMoveKey`): outside move mode the arrows move the cursor within the board, select enters move mode on the player's own piece and reports any other square; in move mode the cursor stays, a direction key sends the piece under the cursor that way and leaves the mode, cancel leaves it sending nothing, other keys are reported; c or q concedes |
| Sessions.InGameState.HandleUserInput | session.go:561-570 | `KeyHandled`: panics iff the game is nil, changing nothing; otherwise the game's own handler's cursor, move mode and command (tic-tac-toe sends the square under the cursor; checkers with the intended cancel, see Findings) |
| Sessions.InGameState.HandleServerMessage | session.go:698-720 | Error is reported; TurnResult updates the game and whose turn it is; GameFinished ends the game; RoomClosed goes to the menu; others are refused |
| Sessions.SessionState.StateType | session.go:251-256 | every state reports one of the five state types |
| Sessions.NewSession | session.go:59-67 | a session in the menu with no room, game, error or pending response |
| Sessions.EnterMenu | session.go:194-198 | the menu can be entered from anywhere and nothing else changes |
| Sessions.EnterWaitingRoom | session.go:199-204 | allowed exactly from the menu or the end screen, otherwise the transition panic |
| Sessions.SetState | session.go:192-222 | panics exactly on a disallowed transition with its message; otherwise only the state changes, to a fresh state of the target type built from the session |
| Sessions.HandleRoomClosure | session.go:157-167 | back to the menu with the room-closed message; nothing else changes |
| Sessions.AcceptedMovesAreAllowed | session.go:192-222 | every server message leaves the session in its state or one `setState` allows |
| Sessions.GameOnlyAfterStart | session.go:523-536 | a run of server messages that reaches a game from outside one contains GameStarted |
| Sessions.HandleMenuServerMessage | session.go:333-342 | only RoomJoined is accepted: it records the player number and enters the waiting room |
| Sessions.HandleWaitingRoomServerMessage | session.go:396-407 | RoomClosed goes to the menu, EnteredGameSelection to game selection; others are refused |
| Sessions.HandleEndGameServerMessage | session.go:799-812 | RoomJoined re-enters the waiting room, RoomClosed goes to the menu; others are refused |
| Sessions.HandleServerMessage | session.go:108-119 | only a nil started game panics. `HandledAs`: the session ends in the state `AfterMessage` gives with its room code and waiting flag kept; refusals leave it unchanged and carry the state's text; an accepted message is an error only when the server sent Error, and an error leaves the session as it was; RoomJoined records the player number; GameStarted records the game, its type and the player on turn; TurnResult records the game and turn; GameFinished records game and result and ends the game. `PhaseObjectAs`: a new selection starts on the first entry for this player, a started game is set up from the message, and a turn result updates the in-game copy and whose turn it is |
| Sessions.HandleMenuInput | session.go:280-306 | enter with an empty code is refused; a dial error is reported; otherwise the code is recorded and JoinRoom is sent with it |
| Sessions.HandleWaitingRoomInput | session.go:358-367 | q sends QuitRoom; every other key does nothing |
| Sessions.HandleEndGameInput | session.go:783-797 | y rejoins the same room, n or q quits, other keys do nothing |
| Sessions.HandleUserInput | session.go:104-106 | `InputHandled`: only a nil game in play panics; the menu may record the room code and every other state keeps the session; each state answers as its own handler promises, down to the selection's and the in-game `KeyHandled` (cursor, move mode, command) |
| Sessions.ReceiveServerMessage | session.go:114-120 | panics only for a nil started game; a refused message or an in-game server error goes to the error line of the session as it was; an accepted message leaves the session and phase object `HandledAs` and `PhaseObjectAs` promise; it listens again |
| Sessions.ErrorLineAs | session.go:115-118 | after any handler that keeps `HandledAs`, the error line holds the refusal or server error text on the unchanged session, and an accepted message's session is the handler's |
| Sessions.Update | session.go:97-128 | a key clears the error, ctrl+c quits, and any other key is handled as `InputHandled` promises; a server message clears the pending flag and listens again; a closed server returns to the menu; otherwise it panics only for a nil started game and keeps `ReceiveServerMessage`'s promises; the state only moves as `setState` allows |
| Commands.GetCommands | commands.go:13-70 | exactly help, exit, join, select, move, quit; help and exit are the basic commands |
| Commands.CreateJoinMessage | commands.go:104-114 | fails iff there is no argument; otherwise JoinRoom with the first argument as the code |
| Commands.JoinAgreesWithMenu | commands.go:104-114 | `join <code>` sends the same message as typing the code in the menu |
| Commands.CreateSelectGameMessage | commands.go:120-140 | "1" selects tic-tac-toe and "2" checkers; anything else, or no argument, fails with its text |
| Commands.SelectByNumber | commands.go:120-140 | each game type is selected by its value plus one printed in decimal |
| Commands.CreateQuitMessage | commands.go:223-227 | always QuitRoom, whatever the arguments |
| Commands.CreateTicTacToeTurn | commands.go:157-183 | needs two 32-bit integers, row first; the move unwraps to the square (column, row) |
| Commands.MoveCommandRoundTrip | commands.go:157-183 | the square's row and column printed in decimal give back the keyboard's move message |
| Commands.DirectionArg | commands.go:196-208 | l, r, bl, br name the four directions; the two-letter ones are the backward ones |
| Commands.DirectionNamesRoundTrip | commands.go:196-208 | each direction is named by exactly one argument |
| Commands.CreateCheckersTurn | commands.go:185-217 | needs a 32-bit piece number and a direction argument; the turn unwraps to exactly that piece and direction |
| Commands.CheckersCommandRoundTrip | commands.go:185-217 | a checkers turn written as its arguments parses back to itself |
| Commands.CreateSendTurnMessage | commands.go:146-155 | the turn built unwraps to the game being played; an unknown game type fails |
| Commands.CreatePlayerMessage | commands.go:96-98 | each command kind builds its own message type; quit never fails |
| Repl.LowerChar | repl.go:11 | ASCII capitals become small letters (32 code points up); nothing else changes; separators stay separators |
| Repl.ToLower | repl.go:11 | each character is lowered in place, length kept |
| Repl.Fields | repl.go:12 | every word is non-empty and free of separators; no words iff the line is all separators |
| Repl.FieldsKeepText | repl.go:12 | the words, run together, are exactly the line's non-separator characters in order |
| Repl.FieldsOfJoinWords | repl.go:12 | words joined by single spaces split back into the same words |
| Repl.FieldsKeepLower | repl.go:12 | a line without capitals gives words without capitals |
| Repl.CleanInput | repl.go:10-14 | lower-case, non-empty, separator-free words; none iff the line is blank |
| Repl.CleanInputOfWords | repl.go:10-14 | lower-case words typed with single spaces are given back unchanged |
| Repl.ReadLine | repl.go:16-49 | a blank line is skipped, and only a blank line; the first word is reported as invalid iff it is not a command; help and exit, and only they, run as basic commands with the remaining words; a game command's message, or its error, comes from its arguments |
| Repl.JoinLowersCode | repl.go:21-45 | `join <code>` asks for the lower-cased code |

## Left out

- Rendering (`View`, `GetDisplayString`, `DisplayBoard`, `renderPiece`, `toSubscript`), logging, and the terminal library's event loop are not modelled.
- Networking (websocket upgrade, `ServeWs`, `readPump`, JSON encoding) is left out. Channels are outbox sequences, and a write error is a parameter.
- Goroutines and `select` are left out: each loop iteration is a method call, and the order of arrival is the caller's.
- StartWS (session.go:69-78) is a parameter: `KeyContext.dialError`. The menu's text field (a widget with a 5-character limit) is `KeyContext.text`.
- The `setState` close of the websocket driver (session.go:192-222) is left out.
- `ListenToServer` (session.go:80-91) is left out: the message it delivers on a closed channel is the `serverClosed` flag of `ServerMsg`.
- handleGameOver (session.go:169-186) is not modelled: its only call is commented out.
- `ClientConcede` is not declared in messages.go. The concede key is the command `SendConcede`, not a message.
- The session builds a checkers turn from `PieceCoords`, a field the engine's `CheckersTurn` does not have. That send is the command `SendCheckersTurn(pieceCoords, direction)`.
- `SquareHasPlayerPiece` is not declared in checkers.go. Its answer is the parameter `KeyContext.hasOwnPiece`.
- startRepl calls `CreatePlayerMessage` with the arguments only and then `ValidatePlayerMessage`, which is not declared. `Repl.ReadLine` takes the game type as a parameter and stops at the built message. Sending, the help/exit callbacks and printing are I/O.
- Repl.ToLower: lowers ASCII letters only; `strings.ToLower` also lowers other Unicode capitals.
- Room: room.go passes the whole `GameTurnWrapper` to the legacy engine. The model plays the wrapper's tic-tac-toe coordinates.
- Room: before player 2 joins, the Go room holds a zero-valued game struct (room.go:15, never nil); the model holds `game == null` until room.go:107 installs a fresh game. No handler reads the game in those states.
- Hubs.Hub.HandleRoomRequest: hub.go:43 passes `closeReq` to `NewRoom`, which takes only the code. The model builds the room from the code.
- A closed request channel delivering zero values to a room is left out.
- A decoded game whose `GameType` field disagrees with its engine is left out: engines report their own type.
- Strconv.ParseInt32: the error value of `strconv.ParseInt` is reduced to `None`.
- Sessions.InGameState.HandleCheckersInput: the session runs the corrected cancel of the Findings row for session.go:645-667, so escape or backspace in move mode sends nothing here (and through `Sessions.InGameState.HandleUserInput`, `Sessions.HandleUserInput` and `Sessions.Update`); the Left turn the source sends is modelled only by `Sessions.InGameState.HandleMoveKeyAsWritten`.
- TicTacToe.TicTacToeGame.ValidateMove, TicTacToe.TicTacToeGame.ExecuteTurn, Checkers.CheckersGame.ValidateMove and Checkers.CheckersGame.ExecuteTurn take the engine's own turn type; the type-assertion panic for a nil turn or a turn of the other game is modelled once, in `Games.ValidateTurn` and `Games.ExecuteTurn`.
- Games.ExecuteTurn: a checkers capture runs the corrected `Checkers.CheckersGame.ExecuteTurn` of the Findings row for checkers.go:195-203 (the mover lands beyond the captured piece and the status is recomputed); the source's early return, which leaves the mover in place, is modelled only by `Checkers.CheckersGame.ExecuteTurnAsWritten`.
- Checkers: the engine never promotes a piece to king. The model keeps the king rule of `ValidateMove` for boards that hold kings.

## Findings

| source | as written | input that shows it | evidently intended | confidence | as-written member | corrected member |
|---|---|---|---|---|---|---|
| internal/game/tic_tac_toe.go:53 | the bounds test checks `Y > 2` twice and never `X > 2` | a move to column 3, row 0 passes the test and indexes past the row (panic) | reject any column above 2 as out of bounds | not executed | TicTacToe.TicTacToeGame.ValidateMoveAsWritten, TicTacToe.ColumnBoundMissed | TicTacToe.TicTacToeGame.ValidateMove, used by Games.ValidateTurn |
| internal/tictactoe/tic_tac_toe.go:43 | the same test, `Y > 2` twice and no `X > 2` | coordinates (3, 0) index past the row (panic) | false for any column above 2 | not executed | LegacyTicTacToe.TicTacToeGame.ValidateMoveAsWritten, LegacyTicTacToe.ColumnBoundMissed | LegacyTicTacToe.TicTacToeGame.ValidateMove |
| internal/game/checkers.go:195-203 | a capture computes the landing square and returns without moving the capturing piece or recomputing the status | any valid jump: the captured piece disappears, the mover stays on its square, and taking the last piece does not end the game | the mover lands beyond the captured piece and the status is recomputed | not executed | Checkers.CheckersGame.ExecuteTurnAsWritten, Checkers.CaptureLeavesMoverInPlace | Checkers.CheckersGame.ExecuteTurn, used by Games.ExecuteTurn |
| session.go:645-667 | backspace/escape in move mode clears the mode and falls through to the send | pressing escape after selecting a piece sends a turn with the zero direction, Left | cancel leaves move mode and sends nothing | not executed | Sessions.InGameState.HandleMoveKeyAsWritten | Sessions.InGameState.HandleMoveKey, used by Sessions.InGameState.HandleCheckersInput |
