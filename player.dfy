/**
  server/player.go: the server side of one client connection. The player's
  state goes NotInRoom -> WaitingRoom -> InGameSelection -> InRoom; each state
  forwards some client messages to the room, relays some room messages to the
  client, and treats everything else as an error that ends the player's `Run`
  loop. Sends to the room, to the hub and to the client are recorded in three
  outboxes.
*/
module Players {
  import opened Wrappers
  import opened Strconv
  import opened Messages
  import opened Channels

  datatype PlayerState = NotInRoom | WaitingRoom | InGameSelection | InRoom

  /** How far along its life a player is; no handler ever moves it back. */
  function Rank(s: PlayerState): nat {
    match s
    case NotInRoom => 0
    case WaitingRoom => 1
    case InGameSelection => 2
    case InRoom => 3
  }

  /** A send on the room's `playerToRoom` channel of the given pair. */
  datatype RoomSend = RoomSend(to: RoomChans, msg: ClientMessage)

  /** The client message types a state passes on to the room (joining is handled apart). */
  predicate Forwards(s: PlayerState, t: ClientMessageType) {
    match s
    case NotInRoom => false
    case WaitingRoom => t == ClientQuitRoom
    case InGameSelection => t == ClientQuitRoom || t == ClientSelectGameType
    case InRoom => t == ClientSendTurn || t == ClientQuitRoom
  }

  /** The error a state returns for a client message it does not accept; `%v` prints the type as an int. */
  function ClientRejection(s: PlayerState, t: ClientMessageType): string {
    match s
    case NotInRoom => "unsupported message type while waiting for room: " + IntToString(t)
    case WaitingRoom => "unsupported message type while waiting for room: " + IntToString(t)
    case InGameSelection => "unsupported message type while game selection: " + IntToString(t)
    case InRoom => "unsupported message type while in room: " + IntToString(t)
  }

  /** The error a state returns for a room message it does not accept; `%v` prints the type's label. */
  function RoomRejection(s: PlayerState, t: ServerMessageType): string {
    match s
    case NotInRoom => "unsupported message type while waiting for room: " + ServerMessageTypeString(t)
    case WaitingRoom => "unsupported message type while waiting for room: " + ServerMessageTypeString(t)
    case InGameSelection => "unsupported message type while in game selection: " + ServerMessageTypeString(t)
    case InRoom => "unsupported message type while in room: " + ServerMessageTypeString(t)
  }

  /** The error that ends a player once its game is over. */
  function GameEnded(m: ServerMessage): string {
    "game ended, closing client. game result: " + IntToString(m.gameResult)
  }

  const FullRoom := "player tried to join full room"

  /** The state a player moves to when a room message is handled without error. */
  function Advance(s: PlayerState): PlayerState {
    match s
    case NotInRoom => WaitingRoom
    case WaitingRoom => InGameSelection
    case InGameSelection => InRoom
    case InRoom => InRoom
  }

  /** The room messages a state handles without ending the player, write errors aside. */
  predicate RoomAccepts(s: PlayerState, t: ServerMessageType) {
    match s
    case NotInRoom => t == ServerRoomJoined
    case WaitingRoom => t != ServerGameFinished
    case InGameSelection => t == ServerGameStarted
    case InRoom => t == ServerTurnResult || t == ServerError
  }

  /** The accepted room messages that are written to the client, with the write's error checked. */
  predicate RoomRelays(s: PlayerState, t: ServerMessageType) {
    RoomAccepts(s, t) && (s != WaitingRoom || t == ServerEnteredGameSelection)
  }

  /** The room messages written to the client: the relayed ones, and the two that end the player after a write. */
  predicate WritesToClient(s: PlayerState, t: ServerMessageType) {
    RoomRelays(s, t) || (s == NotInRoom && t == ServerRoomUnavailable) || (s != NotInRoom && t == ServerGameFinished)
  }

  class Player {
    var state: PlayerState
    var playerNumber: int
    /** The room channel pair; null stands for Go's zero `RoomChans` with nil channels. */
    var room: RoomChans?
    /** The `Run` loop has returned. */
    var stopped: bool
    var toRoom: seq<RoomSend>
    var toHub: seq<RoomRequest>
    /** Every `WriteToClient`, oldest first, whether or not the write then failed. */
    var toClient: seq<ServerMessage>

    /** Past NotInRoom a player always has room channels. */
    ghost predicate Valid()
      reads this
    {
      state != NotInRoom ==> room != null
    }

    /** `NewPlayer`: not in a room, with no room channels. */
    constructor ()
      ensures Valid()
      ensures state == NotInRoom && room == null && playerNumber == 0 && !stopped
      ensures toRoom == [] && toHub == [] && toClient == []
    {
      state := NotInRoom;
      playerNumber := 0;
      room := null;
      stopped := false;
      toRoom := [];
      toHub := [];
      toClient := [];
    }

    /**
      `handleClientMessage` of the current state. Not in a room, JoinRoom makes
      a fresh channel pair, installs it and asks the hub for the room by code;
      in a room, the message types `Forwards` lists go to the room. Nothing
      else is accepted. No client message changes the state.
    */
    method HandleClientMessage(msg: ClientMessage) returns (err: Option<string>)
      requires Valid()
      modifies this
      ensures Valid()
      ensures state == old(state) && playerNumber == old(playerNumber)
      ensures stopped == old(stopped) && toClient == old(toClient)
      ensures old(state) == NotInRoom && msg.msgType == ClientJoinRoom ==>
        && err == None && room != null && fresh(room)
        && toHub == old(toHub) + [RoomRequest(msg.roomCode, room)] && toRoom == old(toRoom)
      ensures Forwards(old(state), msg.msgType) ==>
        && err == None && room == old(room)
        && toRoom == old(toRoom) + [RoomSend(room, msg)] && toHub == old(toHub)
      ensures !(old(state) == NotInRoom && msg.msgType == ClientJoinRoom) && !Forwards(old(state), msg.msgType) ==>
        && err == Some(ClientRejection(old(state), msg.msgType))
        && room == old(room) && toRoom == old(toRoom) && toHub == old(toHub)
    {
      match state
      case NotInRoom =>
        if msg.msgType == ClientJoinRoom {
          var chans := new RoomChans();
          room := chans;
          toHub := toHub + [RoomRequest(msg.roomCode, chans)];
          return None;
        }
        return Some(ClientRejection(NotInRoom, msg.msgType));
      case WaitingRoom =>
        if msg.msgType == ClientQuitRoom {
          toRoom := toRoom + [RoomSend(room, msg)];
          return None;
        }
        return Some(ClientRejection(WaitingRoom, msg.msgType));
      case InGameSelection =>
        if msg.msgType == ClientQuitRoom {
          toRoom := toRoom + [RoomSend(room, msg)];
        } else if msg.msgType == ClientSelectGameType {
          toRoom := toRoom + [RoomSend(room, msg)];
        } else {
          return Some(ClientRejection(InGameSelection, msg.msgType));
        }
        return None;
      case InRoom =>
        if msg.msgType == ClientSendTurn {
          toRoom := toRoom + [RoomSend(room, msg)];
        } else if msg.msgType == ClientQuitRoom {
          toRoom := toRoom + [RoomSend(room, msg)];
        } else {
          return Some(ClientRejection(InRoom, msg.msgType));
        }
        return None;
    }

    /** `WriteToClient`: the write's own error, if any, is `writeErr`. */
    method WriteToClient(msg: ServerMessage, writeErr: Option<string>) returns (err: Option<string>)
      modifies this
      ensures toClient == old(toClient) + [msg] && err == writeErr
      ensures state == old(state) && playerNumber == old(playerNumber) && room == old(room)
      ensures stopped == old(stopped) && toRoom == old(toRoom) && toHub == old(toHub)
    {
      toClient := toClient + [msg];
      err := writeErr;
    }

    /**
      `handleRoomMessage` of the current state; `writeErr` is what writing to
      the client connection returns. Not in a room: RoomJoined records the
      player number, is relayed and moves to WaitingRoom; RoomUnavailable is
      relayed and ends the player. WaitingRoom: GameFinished is relayed and
      ends the player, EnteredGameSelection is relayed, and every other
      message moves to InGameSelection without being relayed.
      InGameSelection: GameStarted is relayed and moves to InRoom. InRoom:
      TurnResult and Error are relayed. GameFinished ends the player in every
      state past NotInRoom; any other message is an error. A failed write
      ends the player where the source checks it.
    */
    method HandleRoomMessage(msg: ServerMessage, writeErr: Option<string>) returns (err: Option<string>)
      requires Valid() && room != null
      modifies this
      ensures Valid()
      ensures room == old(room) && stopped == old(stopped) && toRoom == old(toRoom) && toHub == old(toHub)
      ensures Rank(old(state)) <= Rank(state) <= Rank(old(state)) + 1
      ensures old(state) == NotInRoom ==>
        if msg.msgType == ServerRoomJoined then
          && playerNumber == msg.playerNumber && toClient == old(toClient) + [msg] && err == writeErr
          && state == (if writeErr.None? then WaitingRoom else NotInRoom)
        else if msg.msgType == ServerRoomUnavailable then
          && err == Some(FullRoom) && toClient == old(toClient) + [msg]
          && state == NotInRoom && playerNumber == old(playerNumber)
        else
          && err == Some(RoomRejection(NotInRoom, msg.msgType)) && toClient == old(toClient)
          && state == NotInRoom && playerNumber == old(playerNumber)
      ensures old(state) == WaitingRoom ==>
        && playerNumber == old(playerNumber)
        && if msg.msgType == ServerGameFinished then
             err == Some(GameEnded(msg)) && toClient == old(toClient) + [msg] && state == WaitingRoom
           else if msg.msgType == ServerEnteredGameSelection then
             && toClient == old(toClient) + [msg] && err == writeErr
             && state == (if writeErr.None? then InGameSelection else WaitingRoom)
           else
             err == None && toClient == old(toClient) && state == InGameSelection
      ensures old(state) == InGameSelection ==>
        && playerNumber == old(playerNumber)
        && if msg.msgType == ServerGameFinished then
             err == Some(GameEnded(msg)) && toClient == old(toClient) + [msg] && state == InGameSelection
           else if msg.msgType == ServerGameStarted then
             && toClient == old(toClient) + [msg] && err == writeErr
             && state == (if writeErr.None? then InRoom else InGameSelection)
           else
             && err == Some(RoomRejection(InGameSelection, msg.msgType))
             && toClient == old(toClient) && state == InGameSelection
      ensures old(state) == InRoom ==>
        && playerNumber == old(playerNumber) && state == InRoom
        && if msg.msgType == ServerGameFinished then
             err == Some(GameEnded(msg)) && toClient == old(toClient) + [msg]
           else if msg.msgType == ServerTurnResult || msg.msgType == ServerError then
             toClient == old(toClient) + [msg] && err == writeErr
           else
             err == Some(RoomRejection(InRoom, msg.msgType)) && toClient == old(toClient)
    {
      match state
      case NotInRoom =>
        if msg.msgType == ServerRoomJoined {
          playerNumber := msg.playerNumber;
          err := WriteToClient(msg, writeErr);
          if err.Some? {
            return err;
          }
          state := WaitingRoom;
        } else if msg.msgType == ServerRoomUnavailable {
          var _ := WriteToClient(msg, writeErr);
          return Some(FullRoom);
        } else {
          return Some(RoomRejection(NotInRoom, msg.msgType));
        }
        return None;
      case WaitingRoom =>
        if msg.msgType == ServerGameFinished {
          var _ := WriteToClient(msg, writeErr);
          return Some(GameEnded(msg));
        } else if msg.msgType == ServerEnteredGameSelection {
          err := WriteToClient(msg, writeErr);
          if err.Some? {
            return err;
          }
        }
        state := InGameSelection;
        return None;
      case InGameSelection =>
        if msg.msgType == ServerGameFinished {
          var _ := WriteToClient(msg, writeErr);
          return Some(GameEnded(msg));
        } else if msg.msgType == ServerGameStarted {
          err := WriteToClient(msg, writeErr);
          if err.Some? {
            return err;
          }
          state := InRoom;
        } else {
          return Some(RoomRejection(InGameSelection, msg.msgType));
        }
        return None;
      case InRoom =>
        if msg.msgType == ServerGameFinished {
          var _ := WriteToClient(msg, writeErr);
          return Some(GameEnded(msg));
        } else if msg.msgType == ServerTurnResult || msg.msgType == ServerError {
          err := WriteToClient(msg, writeErr);
          if err.Some? {
            return err;
          }
        } else {
          return Some(RoomRejection(InRoom, msg.msgType));
        }
        return None;
    }

    /** The client-message case of `Run`: an error ends the loop. */
    method ReceiveClientMessage(msg: ClientMessage)
      requires Valid() && !stopped
      modifies this
      ensures Valid() && state == old(state)
      ensures stopped <==>
        !(old(state) == NotInRoom && msg.msgType == ClientJoinRoom) && !Forwards(old(state), msg.msgType)
    {
      var err := HandleClientMessage(msg);
      if err.Some? {
        stopped := true;
      }
    }

    /**
      The room-message case of `Run`: an error ends the loop. Room messages
      only arrive once the player has room channels (a nil channel never
      delivers). The loop ends exactly when the state refuses the message or
      a checked write to the client fails; otherwise the player advances.
    */
    method ReceiveRoomMessage(msg: ServerMessage, writeErr: Option<string>) returns (err: Option<string>)
      requires Valid() && !stopped && room != null
      modifies this
      ensures Valid()
      ensures stopped <==> err.Some?
      ensures stopped <==>
        !RoomAccepts(old(state), msg.msgType) || (RoomRelays(old(state), msg.msgType) && writeErr.Some?)
      ensures state == (if stopped then old(state) else Advance(old(state)))
      ensures playerNumber ==
        (if old(state) == NotInRoom && msg.msgType == ServerRoomJoined then msg.playerNumber else old(playerNumber))
      ensures toClient == old(toClient) + (if WritesToClient(old(state), msg.msgType) then [msg] else [])
      ensures room == old(room) && toRoom == old(toRoom) && toHub == old(toHub)
    {
      err := HandleRoomMessage(msg, writeErr);
      if err.Some? {
        stopped := true;
      }
    }

    /**
      The client stream closed: like a graceful quit, a QuitRoom goes to the
      room if the player has room channels, and the player stops.
    */
    method ClientClosed()
      requires Valid() && !stopped
      modifies this
      ensures stopped && state == old(state) && room == old(room)
      ensures old(room) != null ==> toRoom == old(toRoom) + [RoomSend(room, ClientMessageOf(ClientQuitRoom))]
      ensures old(room) == null ==> toRoom == old(toRoom)
      ensures toClient == old(toClient) && toHub == old(toHub)
    {
      if room != null {
        toRoom := toRoom + [RoomSend(room, ClientMessageOf(ClientQuitRoom))];
      }
      stopped := true;
    }

    /** The room channel closed: the client is told RoomDisconnected and the player stops. */
    method RoomClosed()
      requires Valid() && !stopped && room != null
      modifies this
      ensures stopped && state == old(state) && room == old(room)
      ensures toClient == old(toClient) + [ServerMessageOf(ServerRoomDisconnected)]
      ensures toRoom == old(toRoom) && toHub == old(toHub)
    {
      toClient := toClient + [ServerMessageOf(ServerRoomDisconnected)];
      stopped := true;
    }
  }
}
