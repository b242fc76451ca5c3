/** The pool of websocket/game_pool.go: the connection registry it embeds
    from `BasePool`, the room states, which rooms have a use case, and the
    handlers that need no use case (leave, the fan-out loop's broadcast,
    ping and pong). The handlers that go through a room's use case are in
    module WebsocketGamePoolHandlers. The channels are part of the outbox:
    a send on `Unregister` or `Broadcast` is an effect the fan-out loop
    consumes later. */
module WebsocketGamePool {
  import opened GoValues
  import opened GameRoomStateModel
  import opened GameMessageModel
  import opened Outbox
  import opened GameClientModel
  import ClientPoolHelper

  /** Where the fan-out loop sends a message taken from the `Broadcast`
      channel: the room of the `uint` under "room_id" of its payload map.
      None when `msg.Payload.(map[string]any)["room_id"].(uint)` panics: the
      payload is not a map, or its "room_id" is missing or not a `uint`. */
  function BroadcastRoom(msg: GameMessage): (r: Option<RoomId>)
    requires msg.Message?
    ensures r.Some? ==> msg.payload.Dynamic? && Field(msg.payload.value, "room_id") == Some(Uint(r.value))
    ensures r.None? ==> !msg.payload.Dynamic? || Field(msg.payload.value, "room_id").None?
                        || !Field(msg.payload.value, "room_id").value.Uint?
  {
    match msg.payload
    case Dynamic(v) =>
      var roomId := Field(v, "room_id");
      if roomId.Some? && roomId.value.Uint? then Some(roomId.value.u) else None
    case _ => None
  }

  /** A typed payload never reaches a room: the fan-out loop panics on it,
      whatever room id it carries. */
  lemma TypedPayloadPanics(msg: GameMessage)
    requires msg.Message? && !msg.payload.Dynamic?
    ensures BroadcastRoom(msg).None?
  {
  }

  /** `int64(f)` of a JSON number: the fraction is truncated toward zero. */
  function TruncateToInt(f: real): (r: int)
    ensures f >= 0.0 ==> r as real <= f < r as real + 1.0
    ensures f < 0.0 ==> r as real - 1.0 < f <= r as real
  {
    if f >= 0.0 then f.Floor else -((-f).Floor)
  }

  /** The timestamp of a ping or pong payload, when the payload is a map
      holding a `float64` under "timestamp"; otherwise the message is
      ignored. */
  function TimestampOf(msg: GameMessage): (r: Option<int>)
    ensures r.Some? <==> msg.Message? && msg.payload.Dynamic?
                         && Field(msg.payload.value, "timestamp").Some?
                         && Field(msg.payload.value, "timestamp").value.Float64?
    ensures r.Some? ==> r.value == TruncateToInt(Field(msg.payload.value, "timestamp").value.f)
  {
    if msg.Message? && msg.payload.Dynamic? then
      match Field(msg.payload.value, "timestamp")
      case Some(Float64(f)) => Some(TruncateToInt(f))
      case _ => None
    else None
  }

  class GamePool {
    /** `BasePool.Rooms`: the clients of each room. */
    const rooms: ClientPoolHelper.PoolMap<GameClient>
    /** `RoomsState`. */
    var roomsState: map<RoomId, GameRoomState>
    /** The keys of `GameUsecases`. A room's use case holds only the pool
        and (a reference to) the room's state, which is `roomsState[id]` for
        as long as the state exists, so the use case is the pair of this
        pool and the room id and is not stored. */
    var usecaseRooms: set<RoomId>
    var outbox: seq<Effect>

    /** `NewGamePool`: no clients, no states, no use cases. */
    constructor NewGamePool()
      ensures fresh(rooms) && rooms.rooms == map[]
      ensures roomsState == map[] && usecaseRooms == {} && outbox == []
    {
      rooms := new ClientPoolHelper.PoolMap<GameClient>();
      roomsState := map[];
      usecaseRooms := {};
      outbox := [];
    }

    /** What the handlers keep: every stored state has a use case, carries
        its own room id and is well formed, every room with clients has a
        state, and no room is registered with no clients. */
    predicate Valid()
      reads this, rooms
    {
      && roomsState.Keys <= usecaseRooms
      && rooms.rooms.Keys <= roomsState.Keys
      && (forall r :: r in roomsState ==> roomsState[r].roomId == r && WellFormed(roomsState[r]))
      && ClientPoolHelper.NoEmptyRooms(rooms.rooms)
    }

    /** `LeaveRoom`: hand the client to the unregister handler. */
    method LeaveRoom(c: GameClient)
      modifies this
      ensures outbox == old(outbox) + [ToUnregisterChannel(c.userId, c.roomId)]
      ensures roomsState == old(roomsState) && usecaseRooms == old(usecaseRooms)
    {
      outbox := outbox + [ToUnregisterChannel(c.userId, c.roomId)];
    }

    /** `handleBroadcast`: write the message to every client of the room
        its payload names. The payload must be a map with a `uint` room id
        (the assertion panics otherwise). */
    method HandleBroadcast(msg: GameMessage)
      requires msg.Message? && BroadcastRoom(msg).Some?
      modifies this
      ensures outbox == old(outbox) + [ToRoom(BroadcastRoom(msg).value, msg)]
      ensures roomsState == old(roomsState) && usecaseRooms == old(usecaseRooms)
    {
      var payload := msg.payload.value.fields;
      var roomId := payload["room_id"].u;
      outbox := outbox + [ToRoom(roomId, msg)];
    }

    /** `handlePingMessage`: answer a ping that carries a numeric timestamp
        with a pong echoing it; ignore any other ping. */
    method HandlePingMessage(c: GameClient, msg: GameMessage)
      modifies this
      ensures TimestampOf(msg).Some? ==> outbox == old(outbox) + [ToClient(c.userId, PongFor(TimestampOf(msg).value))]
      ensures TimestampOf(msg).None? ==> outbox == old(outbox)
      ensures roomsState == old(roomsState) && usecaseRooms == old(usecaseRooms)
    {
      if msg.Message? && msg.payload.Dynamic? && msg.payload.value.Object? && "timestamp" in msg.payload.value.fields {
        var timestamp := msg.payload.value.fields["timestamp"];
        if timestamp.Float64? {
          outbox := outbox + [ToClient(c.userId, PongFor(TruncateToInt(timestamp.f)))];
        }
      }
    }

    /** `handlePongMessage`: record a pong that carries a numeric
        timestamp; ignore any other pong. */
    method HandlePongMessage(c: GameClient, msg: GameMessage)
      modifies this
      ensures TimestampOf(msg).Some? ==> outbox == old(outbox) + [PongHandled(c.userId, TimestampOf(msg).value)]
      ensures TimestampOf(msg).None? ==> outbox == old(outbox)
      ensures roomsState == old(roomsState) && usecaseRooms == old(usecaseRooms)
    {
      if msg.Message? && msg.payload.Dynamic? && msg.payload.value.Object? && "timestamp" in msg.payload.value.fields {
        var timestamp := msg.payload.value.fields["timestamp"];
        if timestamp.Float64? {
          outbox := outbox + [PongHandled(c.userId, TruncateToInt(timestamp.f))];
        }
      }
    }
  }
}
