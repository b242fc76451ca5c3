/** The bookkeeping pool of domain/model/game_pool_model.go: room states
    under `Rooms`, connections under `Clients`, and a `Start` loop whose
    register and unregister cases only keep the two in step. Its rooms
    have no countdown. */
module DomainModelGamePool {
  import opened GoValues
  import opened GameRoomStateModel
  import opened GameMessageModel
  import opened Outbox
  import opened RoomLifecycle
  import opened GameClientModel
  import ClientPoolHelper

  /** The state the register case creates for an unknown room: the client
      as only player, with no creator, no countdown and the zero time. */
  function RegisteredRoom(roomId: RoomId, userId: UserId): (s: GameRoomState)
    ensures Consistent(s) && s.roomId == roomId
    ensures s.players == [userId] && s.lives == map[userId := 3] && s.points == map[userId := 0]
    ensures s.turnIndex == 0 && s.charSet == "" && !s.started && !s.countdownStarted
  {
    FoundedRoom(roomId, 0, userId, false, 0)
  }

  /** Registering a client and storing a consistent state for its room
      keeps the pool's invariant. */
  lemma RegisterKeepsValid(states: map<RoomId, GameRoomState>, m: map<RoomId, map<UserId, GameClient>>,
                           c: GameClient, s: GameRoomState)
    requires m.Keys <= states.Keys && ClientPoolHelper.NoEmptyRooms(m)
    requires forall r :: r in states ==> states[r].roomId == r && Consistent(states[r])
    requires s.roomId == c.roomId && Consistent(s)
    ensures var m' := ClientPoolHelper.Registered(m, c.roomId, c.userId, c);
      var states' := states[c.roomId := s];
      && m'.Keys <= states'.Keys && ClientPoolHelper.NoEmptyRooms(m')
      && forall r :: r in states' ==> states'[r].roomId == r && Consistent(states'[r])
  {
    ClientPoolHelper.RegisteredShape(m, c.roomId, c.userId, c);
  }

  class GamePool {
    /** `Rooms`. */
    var rooms: map<RoomId, GameRoomState>
    /** `Clients`. */
    const clients: ClientPoolHelper.PoolMap<GameClient>
    var outbox: seq<Effect>

    constructor NewGamePool()
      ensures rooms == map[] && fresh(clients) && clients.rooms == map[] && outbox == []
    {
      rooms := map[];
      clients := new ClientPoolHelper.PoolMap<GameClient>();
      outbox := [];
    }

    /** Every room with clients has a state; every state carries its room
        id and keeps Players, Lives and Points in agreement; no room is
        registered empty. */
    predicate Valid()
      reads this, clients
    {
      && clients.rooms.Keys <= rooms.Keys
      && (forall r :: r in rooms ==> rooms[r].roomId == r && Consistent(rooms[r]))
      && ClientPoolHelper.NoEmptyRooms(clients.rooms)
    }

    /** The register case: the client is always recorded; an unknown room
        gets it as sole player, a known one appends it only when it has
        no Lives entry. */
    method HandleRegister(client: GameClient)
      requires Valid()
      modifies this, clients
      ensures Valid()
      ensures clients.rooms == ClientPoolHelper.Registered(old(clients.rooms), client.roomId, client.userId, client)
      ensures client.roomId in clients.rooms && clients.rooms[client.roomId][client.userId] == client
      ensures client.roomId !in old(rooms) ==> rooms == old(rooms)[client.roomId := RegisteredRoom(client.roomId, client.userId)]
      ensures client.roomId in old(rooms) ==> rooms == old(rooms)[client.roomId := Joined(old(rooms)[client.roomId], client.userId)]
      ensures outbox == old(outbox)
    {
      ClientPoolHelper.RegisteredShape(clients.rooms, client.roomId, client.userId, client);
      clients.RegisterClient(client.roomId, client.userId, client);
      if client.roomId !in rooms {
        CreateRoom(client);
      } else {
        JoinedKeeps(rooms[client.roomId], client.userId);
        SeatInRoom(client);
      }
      RegisterKeepsValid(old(rooms), old(clients.rooms), client, rooms[client.roomId]);
    }

    /** The first branch of the register case. */
    method CreateRoom(client: GameClient)
      modifies this
      ensures rooms == old(rooms)[client.roomId := RegisteredRoom(client.roomId, client.userId)]
      ensures outbox == old(outbox)
    {
      var created := GameRoomState(client.roomId, 0, [client.userId], map[client.userId := 3],
                                   map[client.userId := 0], 0, "", false, 0, 0, 0, false, 0, false);
      rooms := rooms[client.roomId := created];
    }

    /** The second branch of the register case: append only a user without
        a Lives entry. */
    method SeatInRoom(client: GameClient)
      requires client.roomId in rooms
      modifies this
      ensures rooms == old(rooms)[client.roomId := Joined(old(rooms)[client.roomId], client.userId)]
      ensures outbox == old(outbox)
    {
      var room := rooms[client.roomId];
      if client.userId !in room.lives {
        room := room.(players := room.players + [client.userId],
                      lives := room.lives[client.userId := 3],
                      points := room.points[client.userId := 0]);
        rooms := rooms[client.roomId := room];
      }
    }

    /** The unregister case: the client is removed, and the room's state
        goes exactly when its client map is empty. */
    method HandleUnregister(client: GameClient)
      requires Valid()
      modifies this, clients
      ensures Valid()
      ensures clients.rooms == ClientPoolHelper.Unregistered(old(clients.rooms), client.roomId, client.userId)
      ensures client.roomId in clients.rooms ==> rooms == old(rooms)
      ensures client.roomId !in clients.rooms ==> rooms == old(rooms) - {client.roomId}
      ensures outbox == old(outbox)
    {
      ClientPoolHelper.UnregisteredShape(clients.rooms, client.roomId, client.userId);
      clients.UnregisterClient(client.roomId, client.userId);
      if clients.Count(client.roomId) == 0 {
        rooms := rooms - {client.roomId};
      }
    }

    /** The broadcast case: the message goes to every client of its room. */
    method HandleBroadcast(msg: GameMessage)
      requires msg.Envelope?
      modifies this
      ensures outbox == old(outbox) + [ToRoom(msg.roomId, msg)]
      ensures rooms == old(rooms)
    {
      outbox := outbox + [ToRoom(msg.roomId, msg)];
    }
  }

  /** Registering and unregistering keep every room's players, lives and
      points in agreement: a register into a known room keeps the room's
      players as a prefix and adds at most the client. */
  lemma RegisterKeepsAgreement(s: GameRoomState, u: UserId)
    requires Consistent(s)
    ensures Consistent(Joined(s, u))
    ensures Joined(s, u).players[..|s.players|] == s.players
    ensures |Joined(s, u).players| == |s.players| + (if u in s.lives then 0 else 1)
  {
    JoinedKeeps(s, u);
    if u !in s.lives {
      WithNewPlayerKeeps(s, u);
    }
  }
}
