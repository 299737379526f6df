/**
  server/hub.go: the registry inside `Hub.Run`. A map from room code to room;
  a join request goes to the room registered under its code, which is created
  first if there is none, and a close event for a code closes that room's
  request channel and drops the code.
*/
module Hubs {
  import opened Channels
  import opened Rooms

  /** A channel operation the hub performs on a room. */
  datatype HubAction =
    | Forward(room: Room, req: RoomRequest)   // room.requests <- msg
    | CloseRequests(room: Room)               // close(room.requests)

  class Hub {
    var rooms: map<string, Room>
    /** The hub's channel operations, oldest first. */
    var sent: seq<HubAction>

    /** Each room is registered under its own code, and no room under two codes. */
    ghost predicate Valid()
      reads this, rooms.Values
    {
      (forall code :: code in rooms ==> rooms[code].code == code)
    }

    constructor ()
      ensures Valid() && rooms == map[] && sent == []
    {
      rooms := map[];
      sent := [];
    }

    /**
      The request case of `Run`: reuse the room registered under the code, or
      create a new room for it and register it; then forward the request.
    */
    method HandleRoomRequest(req: RoomRequest) returns (room: Room)
      requires Valid()
      modifies this
      ensures Valid()
      ensures req.code in old(rooms) ==> room == old(rooms)[req.code] && rooms == old(rooms)
      ensures req.code !in old(rooms) ==>
        && fresh(room) && room.code == req.code && room.state == WaitingForP1 && room.sent == []
        && rooms == old(rooms)[req.code := room]
      ensures rooms[req.code] == room
      ensures sent == old(sent) + [Forward(room, req)]
    {
      if req.code in rooms {
        room := rooms[req.code];
      } else {
        room := new Room(req.code);
        rooms := rooms[req.code := room];
      }
      sent := sent + [Forward(room, req)];
    }

    /**
      The close case of `Run`: a registered code has its room's request
      channel closed and is removed; an unknown code is only logged.
    */
    method HandleClose(code: string)
      requires Valid()
      modifies this
      ensures Valid()
      ensures code in old(rooms) ==>
        rooms == old(rooms) - {code} && sent == old(sent) + [CloseRequests(old(rooms)[code])]
      ensures code !in old(rooms) ==> rooms == old(rooms) && sent == old(sent)
    {
      if code in rooms {
        var room := rooms[code];
        sent := sent + [CloseRequests(room)];
        rooms := rooms - {code};
      }
    }
  }

  /** Once a code is closed, the next request for it is served by a brand-new room. */
  method ReopenAfterClose(hub: Hub, req: RoomRequest) returns (room: Room)
    requires hub.Valid() && req.code in hub.rooms
    modifies hub
    ensures fresh(room) && room.state == WaitingForP1 && room != old(hub.rooms[req.code])
    ensures hub.rooms == old(hub.rooms)[req.code := room]
  {
    hub.HandleClose(req.code);
    room := hub.HandleRoomRequest(req);
  }
}
