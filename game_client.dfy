/** A player's connection as the pools see it (websocket/client.go): the
    user it belongs to, the name shown to others, and the room it is in,
    which the join handlers overwrite. The socket, its write mutex and the
    keepalive state are left out. */
module GameClientModel {
  import opened GoValues
  import opened GameMessageModel

  class GameClient {
    const userId: nat
    const userName: string
    var roomId: nat

    constructor(userId: nat, userName: string, roomId: nat)
      ensures this.userId == userId && this.userName == userName && this.roomId == roomId
    {
      this.userId := userId;
      this.userName := userName;
      this.roomId := roomId;
    }
  }

  /** What `SendPong` writes back: a pong echoing the ping's timestamp. */
  function PongFor(timestamp: int): (m: GameMessage)
    ensures m.Message? && m.msgType == Pong && Field(Wire(m.payload), "timestamp") == Some(Int64(timestamp))
  {
    NewPongMessage(timestamp)
  }
}
