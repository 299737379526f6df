/**
  server/room.go: a room pairs two players and runs the legacy tic-tac-toe
  engine. Its state goes WaitingForP1 -> WaitingForP2 -> Running; the room's
  `Run` loop hands each join request and each player message to the current
  state's handler. Every send to a player is appended to the room's outbox.
*/
module Rooms {
  import opened Wrappers
  import opened Messages
  import opened Channels
  import LegacyTicTacToe

  datatype RoomState = WaitingForP1 | WaitingForP2 | Running

  /**
    A send on a player's `roomToPlayer` channel. The room puts its legacy game
    in the message's `Game` field, which a `GameWrapper` cannot hold; the model
    carries that copy of the game beside the message.
  */
  datatype Delivery = Delivery(to: RoomChans, msg: ServerMessage, game: Option<LegacyTicTacToe.Snapshot>)

  const AlreadyRunning := "room is already running, can not join"
  const NotYourTurn := "received a message from player when it is not their turn"
  const NoMessagesForP1 := "should be no player messages while waiting for p1"
  const NoMessagesForP2 := "should be no messages from player two while waiting for p2"

  /** `advanceTurn`: player 1 hands over to player 2, and every other value to player 1. */
  function NextTurn(playerTurn: int): (next: int)
    ensures next == 1 || next == 2
    ensures next == 2 <==> playerTurn == 1
  {
    if playerTurn == 1 then 2 else 1
  }

  /** Turns strictly alternate: two hand-overs give the turn back. */
  lemma TurnsAlternate(playerTurn: int)
    requires playerTurn == 1 || playerTurn == 2
    ensures NextTurn(playerTurn) != playerTurn
    ensures NextTurn(NextTurn(playerTurn)) == playerTurn
  {
  }

  /** The copy of a fresh legacy game that the GameStarted messages carry. */
  function InitialSnapshot(): LegacyTicTacToe.Snapshot {
    LegacyTicTacToe.Snapshot(seq(3, _ => seq(3, _ => LegacyTicTacToe.SquareEmpty)), true, LegacyTicTacToe.GameOngoing)
  }

  /** A server message that sets only its type and `PlayerNumber`. */
  function NumberMessage(t: ServerMessageType, playerNumber: int): ServerMessage {
    ServerMessageOf(t).(playerNumber := playerNumber)
  }

  /** A server message that sets only its type and `PlayerTurn`. */
  function TurnMessage(t: ServerMessageType, playerTurn: int): ServerMessage {
    ServerMessageOf(t).(playerTurn := playerTurn)
  }

  class Room {
    const code: string
    var game: LegacyTicTacToe.TicTacToeGame?
    var playerTurn: int
    var state: RoomState
    var playerOneChans: RoomChans?
    var playerTwoChans: RoomChans?
    /** The `Run` loop has returned. */
    var stopped: bool
    /** Everything sent to the players, oldest first. */
    var sent: seq<Delivery>

    /** Each state has what its handlers use: player 1's channels once joined, then the game and player 2. */
    ghost predicate Valid()
      reads this, game
    {
      (state != WaitingForP1 ==> playerOneChans != null) &&
      (state == Running ==>
        playerTwoChans != null && game != null && game.Valid() &&
        (playerTurn == 1 || playerTurn == 2))
    }

    /** `NewRoom`: a room waiting for its first player, with nothing sent. */
    constructor (code: string)
      ensures Valid()
      ensures this.code == code && state == WaitingForP1
      ensures game == null && playerOneChans == null && playerTwoChans == null
      ensures !stopped && sent == []
    {
      this.code := code;
      game := null;
      playerTurn := 0;
      state := WaitingForP1;
      playerOneChans := null;
      playerTwoChans := null;
      stopped := false;
      sent := [];
    }

    /** `advanceTurn`. */
    method AdvanceTurn()
      modifies this
      ensures playerTurn == NextTurn(old(playerTurn))
      ensures state == old(state) && game == old(game) && sent == old(sent)
      ensures playerOneChans == old(playerOneChans) && playerTwoChans == old(playerTwoChans)
      ensures stopped == old(stopped)
    {
      if playerTurn == 1 {
        playerTurn := 2;
      } else {
        playerTurn := 1;
      }
    }

    /**
      `handleJoinRequest` of the current state. The first join records player
      1 and answers RoomJoined{1}; the second records player 2, answers
      RoomJoined{2}, starts a fresh game with player 1 to move, tells player 1
      and then player 2 that the game started, and runs the room. A join in a
      running room is refused.
    */
    method HandleJoinRequest(req: RoomRequest) returns (err: Option<string>)
      requires Valid()
      modifies this
      ensures Valid() && stopped == old(stopped)
      ensures old(state) == WaitingForP1 ==>
        && err == None
        && playerOneChans == req.chans && state == WaitingForP2
        && game == old(game) && playerTurn == old(playerTurn) && playerTwoChans == old(playerTwoChans)
        && sent == old(sent) + [Delivery(req.chans, NumberMessage(ServerRoomJoined, 1), None)]
      ensures old(state) == WaitingForP2 ==>
        && err == None
        && playerTwoChans == req.chans && state == Running
        && game != null && fresh(game) && fresh(game.board)
        && game.Snap() == InitialSnapshot() && playerTurn == 1
        && playerOneChans == old(playerOneChans)
        && sent == old(sent) + [
             Delivery(req.chans, NumberMessage(ServerRoomJoined, 2), None),
             Delivery(playerOneChans, TurnMessage(ServerGameStarted, 1), Some(InitialSnapshot())),
             Delivery(req.chans, TurnMessage(ServerGameStarted, 1), Some(InitialSnapshot()))]
      ensures old(state) == Running ==>
        && err == Some(AlreadyRunning)
        && state == old(state) && game == old(game) && playerTurn == old(playerTurn)
        && playerOneChans == old(playerOneChans) && playerTwoChans == old(playerTwoChans)
        && sent == old(sent)
    {
      match state
      case WaitingForP1 =>
        playerOneChans := req.chans;
        state := WaitingForP2;
        sent := sent + [Delivery(req.chans, NumberMessage(ServerRoomJoined, 1), None)];
        err := None;
      case WaitingForP2 =>
        playerTwoChans := req.chans;
        sent := sent + [Delivery(req.chans, NumberMessage(ServerRoomJoined, 2), None)];
        var g := new LegacyTicTacToe.TicTacToeGame();
        game := g;
        playerTurn := 1;
        assert g.Snap() == InitialSnapshot() by {
          assert forall r :: 0 <= r < 3 ==> g.Snap().board[r] == InitialSnapshot().board[r];
        }
        sent := sent + [Delivery(playerOneChans, TurnMessage(ServerGameStarted, 1), Some(g.Snap()))];
        sent := sent + [Delivery(req.chans, TurnMessage(ServerGameStarted, 1), Some(g.Snap()))];
        state := Running;
        err := None;
      case Running =>
        err := Some(AlreadyRunning);
    }

    /** The join-request case of `Run`: an error from the handler ends the loop. */
    method ReceiveJoinRequest(req: RoomRequest)
      requires Valid() && !stopped
      modifies this
      ensures Valid()
      ensures stopped <==> old(state) == Running
      ensures old(state) == Running ==> sent == old(sent) && state == Running
    {
      var err := HandleJoinRequest(req);
      if err.Some? {
        stopped := true;
      }
    }

    /** A SendTurn message from the player on turn in a running room: the one message that plays a move. */
    predicate IsTurnOnTurn(msg: ClientMessage, playerNumber: int)
      reads this
    {
      state == Running && playerNumber == playerTurn && msg.msgType == ClientSendTurn
    }

    /**
      `handlePlayerMessage` of the current state, for a message from player
      slot `playerNumber`. Waiting for player 1, any message panics; waiting
      for player 2, a message from any slot but 2 panics and slot 2 is
      ignored. Running, a message from the player not on turn is refused and
      changes nothing. SendTurn from the player on turn plays the move (with no
      validation: a square off the board panics on the array access), hands
      the turn over and sends TurnResult to player 1 and then player 2. Other
      messages are ignored.
    */
    method HandlePlayerMessage(msg: ClientMessage, playerNumber: int) returns (r: Exec<Option<string>>)
      requires Valid()
      modifies this, if game == null then {} else {game.board}
      ensures Valid()
      ensures state == old(state) && game == old(game) && stopped == old(stopped)
      ensures playerOneChans == old(playerOneChans) && playerTwoChans == old(playerTwoChans)
      ensures state == WaitingForP1 ==> r == Panic(NoMessagesForP1)
      ensures state == WaitingForP2 ==> r == (if playerNumber != 2 then Panic(NoMessagesForP2) else Done(None))
      ensures state == Running && playerNumber != old(playerTurn) ==> r == Done(Some(NotYourTurn))
      ensures old(IsTurnOnTurn(msg, playerNumber)) && !LegacyTicTacToe.InBounds(msg.turnAction.ticTacToeTurn.coords) ==>
        r == Panic(LegacyTicTacToe.BoardIndexPanic(msg.turnAction.ticTacToeTurn.coords))
      ensures !(old(IsTurnOnTurn(msg, playerNumber)) && LegacyTicTacToe.InBounds(msg.turnAction.ticTacToeTurn.coords)) ==>
        && playerTurn == old(playerTurn) && sent == old(sent)
        && (game != null ==> unchanged(game.board))
      ensures old(IsTurnOnTurn(msg, playerNumber)) && LegacyTicTacToe.InBounds(msg.turnAction.ticTacToeTurn.coords) ==>
        var coords := msg.turnAction.ticTacToeTurn.coords;
        && r == Done(None)
        && game.board[coords.y, coords.x] == (if playerNumber == 2 then LegacyTicTacToe.SquareO else LegacyTicTacToe.SquareX)
        && (forall i, j :: 0 <= i < 3 && 0 <= j < 3 && (i != coords.y || j != coords.x) ==>
              game.board[i, j] == old(game.board[i, j]))
        && playerTurn == NextTurn(old(playerTurn))
        && sent == old(sent) + [
             Delivery(playerOneChans, TurnMessage(ServerTurnResult, playerTurn), Some(game.Snap())),
             Delivery(playerTwoChans, TurnMessage(ServerTurnResult, playerTurn), Some(game.Snap()))]
    {
      match state
      case WaitingForP1 =>
        r := Panic(NoMessagesForP1);
      case WaitingForP2 =>
        if playerNumber != 2 {
          r := Panic(NoMessagesForP2);
        } else {
          r := Done(None);
        }
      case Running =>
        if playerNumber != playerTurn {
          return Done(Some(NotYourTurn));
        }
        if msg.msgType == ClientSendTurn {
          var coords := msg.turnAction.ticTacToeTurn.coords;
          if !LegacyTicTacToe.InBounds(coords) {
            return Panic(LegacyTicTacToe.BoardIndexPanic(coords));
          }
          game.ExecuteTurn(LegacyTicTacToe.TicTacToeTurn(coords), playerNumber);
          AdvanceTurn();
          sent := sent + [Delivery(playerOneChans, TurnMessage(ServerTurnResult, playerTurn), Some(game.Snap()))];
          sent := sent + [Delivery(playerTwoChans, TurnMessage(ServerTurnResult, playerTurn), Some(game.Snap()))];
        }
        r := Done(None);
    }
  }

  /**
    Two turns in a row from the player on turn: the first is played at its
    square alone and reported to both players; the second is refused and
    changes nothing, so the turn stays with the other player.
  */
  method NoDoubleTurn(room: Room, first: ClientMessage, second: ClientMessage, playerNumber: int)
    returns (r2: Exec<Option<string>>)
    requires room.Valid() && room.state == Running && playerNumber == room.playerTurn
    requires first.msgType == ClientSendTurn && LegacyTicTacToe.InBounds(first.turnAction.ticTacToeTurn.coords)
    modifies room, room.game.board
    ensures r2 == Done(Some(NotYourTurn))
    ensures room.playerTurn == NextTurn(playerNumber) && room.playerTurn != playerNumber
    ensures room.Valid() && room.game == old(room.game) && room.state == Running
    ensures var c := first.turnAction.ticTacToeTurn.coords;
      && room.game.board[c.y, c.x] == (if playerNumber == 2 then LegacyTicTacToe.SquareO else LegacyTicTacToe.SquareX)
      && forall i, j :: 0 <= i < 3 && 0 <= j < 3 && (i != c.y || j != c.x) ==>
           room.game.board[i, j] == old(room.game.board[i, j])
    ensures room.sent == old(room.sent) + [
      Delivery(room.playerOneChans, TurnMessage(ServerTurnResult, room.playerTurn), Some(room.game.Snap())),
      Delivery(room.playerTwoChans, TurnMessage(ServerTurnResult, room.playerTurn), Some(room.game.Snap()))]
  {
    var r1 := room.HandlePlayerMessage(first, playerNumber);
    r2 := room.HandlePlayerMessage(second, playerNumber);
  }
}
