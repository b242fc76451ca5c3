/** The game pool of domain/model/pool_model.go. Its registry, room states
    and `Start` loop are those of websocket/pool.go; its countdown end
    differs: the fragment is a random lowercase string of 2 to 5 letters,
    and instead of starting the first turn itself it asks the room to
    start one with an `auto_start` next-turn message, which the read loop
    of usecase/game_ws_usecase.go acts on. */
module DomainModelPool {
  import opened GoValues
  import opened GameRoomStateModel
  import opened GameMessageModel
  import opened Outbox
  import opened RoomLifecycle
  import opened GameClientModel
  import ClientPoolHelper
  import StringGenerator
  import GameConfig
  import WebsocketPool

  /** The request to start the first turn that ends the countdown. */
  function AutoStartEnvelope(roomId: RoomId): GameMessage {
    Envelope(NextTurn, roomId, 0, None, map["auto_start" := Bool(true)])
  }

  /** The drawn fragment `GenerateRandomString(2, 5)` returns: one letter
      per letter draw. */
  predicate DrawnFragment(charSet: string, letterDraws: seq<nat>) {
    && |charSet| == |letterDraws|
    && forall i :: 0 <= i < |charSet| ==> letterDraws[i] < 26 && charSet[i] == StringGenerator.Letters()[letterDraws[i]]
  }

  /** The draws `GenerateRandomString(2, 5)` makes: a length draw below 4
      and one letter draw below 26 per position. */
  predicate FragmentDraws(lengthDraw: nat, letterDraws: seq<nat>) {
    && lengthDraw <= 3
    && |letterDraws| == lengthDraw + 2
    && forall i :: 0 <= i < |letterDraws| ==> letterDraws[i] < 26
  }

  class GamePool {
    const rooms: ClientPoolHelper.PoolMap<GameClient>
    var roomsState: map<RoomId, GameRoomState>
    var outbox: seq<Effect>

    constructor NewGamePool()
      ensures fresh(rooms) && rooms.rooms == map[] && roomsState == map[] && outbox == []
    {
      rooms := new ClientPoolHelper.PoolMap<GameClient>();
      roomsState := map[];
      outbox := [];
    }

    /** Every room with clients has a state, every state is well formed
        and carries its room id, and no room is registered empty. */
    predicate Valid()
      reads this, rooms
    {
      && rooms.rooms.Keys <= roomsState.Keys
      && (forall r :: r in roomsState ==> roomsState[r].roomId == r && WellFormed(roomsState[r]))
      && ClientPoolHelper.NoEmptyRooms(rooms.rooms)
    }

    /** `RoomCount`: the size of the room's client map, 0 for a room
        without one. */
    function RoomCount(roomID: RoomId): (n: nat)
      reads this, rooms
      ensures roomID !in rooms.rooms ==> n == 0
      ensures roomID in rooms.rooms ==> n == |rooms.rooms[roomID]|
    {
      rooms.Count(roomID)
    }

    /** `GetRemainingCountdownTime`: 0 outside a running countdown of an
        unstarted game, otherwise the whole seconds left, never negative. */
    function GetRemainingCountdownTime(roomID: RoomId, now: int): (r: nat)
      reads this
      ensures roomID !in roomsState || !roomsState[roomID].countdownStarted || roomsState[roomID].started ==> r == 0
      ensures roomID in roomsState && roomsState[roomID].countdownStarted && !roomsState[roomID].started ==>
                r == if SecondsUntil(roomsState[roomID].countdownEndTime, now) < 0 then 0
                     else SecondsUntil(roomsState[roomID].countdownEndTime, now)
    {
      if roomID !in roomsState || !roomsState[roomID].countdownStarted || roomsState[roomID].started then 0
      else
        var remainingTime := SecondsUntil(roomsState[roomID].countdownEndTime, now);
        if remainingTime < 0 then 0 else remainingTime
    }

    /** `BroadcastTimerStarted`: nothing for an empty room. */
    method BroadcastTimerStarted(roomID: RoomId, duration: int)
      modifies this
      ensures outbox == old(outbox) + WebsocketPool.TimerStartedEffects(RoomCount(roomID), roomID, duration)
      ensures roomsState == old(roomsState)
    {
      if RoomCount(roomID) == 0 {
        return;
      }
      outbox := outbox + [ToRoom(roomID, WebsocketPool.TimerStartedEnvelope(roomID, duration))];
    }

    /** `BroadcastToRoom`. */
    method BroadcastToRoom(roomID: RoomId, msg: GameMessage)
      modifies this
      ensures outbox == old(outbox) + [ToRoom(roomID, msg)]
      ensures roomsState == old(roomsState)
    {
      outbox := outbox + [ToRoom(roomID, msg)];
    }

    /** The register case of `Start`: the client is registered; a room
        without state is created with the client as sole player and an
        armed countdown, a known room seats a new user only. */
    method HandleRegister(client: GameClient, now: int)
      requires Valid()
      modifies this, rooms
      ensures Valid()
      ensures rooms.rooms == ClientPoolHelper.Registered(old(rooms.rooms), client.roomId, client.userId, client)
      ensures client.roomId !in old(roomsState) ==>
                && roomsState == old(roomsState)[client.roomId := CreatedRoom(client.roomId, client.userId, now).(countdownTimer := true)]
                && outbox == old(outbox) + WebsocketPool.FoundingEffects(client)
      ensures client.roomId in old(roomsState) ==>
                && roomsState == old(roomsState)[client.roomId := Joined(old(roomsState)[client.roomId], client.userId)]
                && outbox == old(outbox) + WebsocketPool.SeatingEffects(old(roomsState)[client.roomId], client, now)
    {
      ClientPoolHelper.RegisteredShape(rooms.rooms, client.roomId, client.userId, client);
      rooms.RegisterClient(client.roomId, client.userId, client);
      if client.roomId !in roomsState {
        FoundRoom(client, now);
      } else {
        JoinedKeeps(roomsState[client.roomId], client.userId);
        SeatInRoom(client, now);
      }
      WebsocketPool.RegisterKeepsValid(old(roomsState), old(rooms.rooms), client, roomsState[client.roomId]);
    }

    /** The first branch of the register case, after registration. */
    method FoundRoom(client: GameClient, now: int)
      requires client.roomId in rooms.rooms && ClientPoolHelper.NoEmptyRooms(rooms.rooms)
      modifies this
      ensures roomsState == old(roomsState)[client.roomId := CreatedRoom(client.roomId, client.userId, now).(countdownTimer := true)]
      ensures outbox == old(outbox) + WebsocketPool.FoundingEffects(client)
    {
      var gameRoomState := CreatedRoom(client.roomId, client.userId, now);
      gameRoomState := gameRoomState.(countdownTimer := true);
      roomsState := roomsState[client.roomId := gameRoomState];
      outbox := outbox + [CountdownArmed(client.roomId, GameConfig.DefaultCountdownTime)];
      assert RoomCount(client.roomId) > 0;
      BroadcastTimerStarted(client.roomId, GameConfig.DefaultCountdownSecs);
      BroadcastToRoom(client.roomId, WebsocketPool.MembershipEnvelope(UserJoined, client, "Room created and joined"));
    }

    /** The second branch of the register case, after registration. */
    method SeatInRoom(client: GameClient, now: int)
      requires client.roomId in rooms.rooms && client.roomId in roomsState
      requires ClientPoolHelper.NoEmptyRooms(rooms.rooms)
      modifies this
      ensures roomsState == old(roomsState)[client.roomId := Joined(old(roomsState)[client.roomId], client.userId)]
      ensures outbox == old(outbox) + WebsocketPool.SeatingEffects(old(roomsState)[client.roomId], client, now)
    {
      var gameRoomState := roomsState[client.roomId];
      if IsPlayerInRoom(gameRoomState, client.userId) {
        return;
      }
      gameRoomState := gameRoomState.(players := gameRoomState.players + [client.userId],
                                      lives := gameRoomState.lives[client.userId := 3],
                                      points := gameRoomState.points[client.userId := 0]);
      roomsState := roomsState[client.roomId := gameRoomState];
      if gameRoomState.countdownStarted && !gameRoomState.started {
        var remainingTime := SecondsUntil(gameRoomState.countdownEndTime, now);
        if remainingTime > 0 {
          assert RoomCount(client.roomId) > 0;
          BroadcastTimerStarted(client.roomId, remainingTime);
        }
      }
      BroadcastToRoom(client.roomId, WebsocketPool.MembershipEnvelope(UserJoined, client, "User joined the room"));
    }

    /** The unregister case of `Start`: the room hears that the user left,
        the client is removed, and a room left without clients has its
        timer stopped and its state deleted. */
    method HandleUnregister(client: GameClient)
      requires Valid()
      modifies this, rooms
      ensures Valid()
      ensures var r := client.roomId;
        && rooms.rooms == ClientPoolHelper.Unregistered(old(rooms.rooms), r, client.userId)
        && (r in rooms.rooms ==> roomsState == old(roomsState))
        && (r !in rooms.rooms ==> roomsState == old(roomsState) - {r})
        && outbox == old(outbox) + [ToRoom(r, WebsocketPool.MembershipEnvelope(UserLeft, client, "User left the room"))]
             + (if r !in rooms.rooms && r in old(roomsState) && old(roomsState)[r].countdownTimer
                then [CountdownStopped(client.roomId)] else [])
    {
      BroadcastToRoom(client.roomId, WebsocketPool.MembershipEnvelope(UserLeft, client, "User left the room"));
      ClientPoolHelper.UnregisteredShape(rooms.rooms, client.roomId, client.userId);
      rooms.UnregisterClient(client.roomId, client.userId);
      if RoomCount(client.roomId) == 0 {
        if client.roomId in roomsState && roomsState[client.roomId].countdownTimer {
          outbox := outbox + [CountdownStopped(client.roomId)];
        }
        roomsState := roomsState - {client.roomId};
      }
    }

    /** The broadcast case of `Start`. */
    method HandleBroadcast(msg: GameMessage)
      requires msg.Envelope?
      modifies this
      ensures outbox == old(outbox) + [ToRoom(msg.roomId, msg)]
      ensures roomsState == old(roomsState)
    {
      BroadcastToRoom(msg.roomId, msg);
    }

    /** `handleCountdownEnd`: a missing or started room is left alone;
        otherwise the game starts with a fresh fragment of 2 to 5 lowercase
        letters, the start is announced, and the room is asked to start
        its first turn. */
    method HandleCountdownEnd(roomID: RoomId, lengthDraw: nat, letterDraws: seq<nat>)
      requires Valid() && FragmentDraws(lengthDraw, letterDraws)
      modifies this
      ensures Valid()
      ensures !CanStartGame(Lookup(old(roomsState), roomID)) ==> roomsState == old(roomsState) && outbox == old(outbox)
      ensures CanStartGame(Lookup(old(roomsState), roomID)) ==>
                && roomID in roomsState
                && var charSet := roomsState[roomID].charSet;
                && 2 <= |charSet| <= 5
                && (forall i :: 0 <= i < |charSet| ==> 'a' <= charSet[i] <= 'z')
                && DrawnFragment(charSet, letterDraws)
                && roomsState == old(roomsState)[roomID := StartedGame(old(roomsState)[roomID], charSet)]
                && outbox == old(outbox) + [ToRoom(roomID, WebsocketPool.StartGameEnvelope(roomID, charSet)),
                                            ToRoom(roomID, AutoStartEnvelope(roomID))]
    {
      var found := Lookup(roomsState, roomID);
      if !CanStartGame(found) {
        return;
      }
      var gameRoomState := found.value;
      var charSet := StringGenerator.GenerateRandomString(2, 5, lengthDraw, letterDraws);
      StartedGameKeeps(gameRoomState, charSet);
      gameRoomState := gameRoomState.(started := true, charSet := charSet, round := 1, timeLimit := 19,
                                      countdownStarted := false, turnIndex := 0);
      roomsState := roomsState[roomID := gameRoomState];
      BroadcastToRoom(roomID, WebsocketPool.StartGameEnvelope(roomID, gameRoomState.charSet));
      BroadcastToRoom(roomID, AutoStartEnvelope(roomID));
    }
  }
}
