/**
  The channel values the server's goroutines pass around: `RoomChans`
  (server/player.go), the pair of channels between one player and its room,
  and `RoomRequest` (server/hub.go), a player's request to join a room by code.
*/
module Channels {

  /**
    A `RoomChans` pair made by `make`: only its identity matters to the model,
    so two pairs are the same exactly when they are the same object. What is
    sent on a pair is recorded in the sender's outbox.
  */
  class RoomChans {
    constructor ()
    {
    }
  }

  datatype RoomRequest = RoomRequest(code: string, chans: RoomChans)
}
