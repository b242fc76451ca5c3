/** The game pool of websocket/pool.go: the registry, the room states, the
    `Start` loop's register, unregister and broadcast cases, and the
    handlers of its read loop. Its messages are the envelope records with a
    room id, a user id and a payload map; its use case is the engine of
    websocket/game_usecase.go over the room's state. The client's `Pool`
    is this pool. */
module WebsocketPool {
  import opened GoValues
  import opened GameRoomStateModel
  import opened GameMessageModel
  import opened Outbox
  import opened TurnRules
  import opened RoomLifecycle
  import opened GameClientModel
  import opened WebsocketGameUsecase
  import WebsocketGameManager
  import ClientPoolHelper
  import GameConfig

  /** The join and leave announcements of the `Start` loop. */
  function MembershipEnvelope(msgType: string, c: GameClient, text: string): GameMessage
    reads c
  {
    Envelope(msgType, c.roomId, c.userId, None,
             map["user_id" := Uint(c.userId), "user_name" := Str(c.userName), "message" := Str(text)])
  }

  function TimerStartedEnvelope(roomId: RoomId, duration: int): GameMessage {
    Envelope(TimerStarted, roomId, 0, None, map["duration" := Int(duration)])
  }

  /** What `BroadcastTimerStarted` writes for a room with `clients`
      clients: nothing to an empty room. */
  function TimerStartedEffects(clients: nat, roomId: RoomId, duration: int): seq<Effect> {
    if clients == 0 then [] else [ToRoom(roomId, TimerStartedEnvelope(roomId, duration))]
  }

  /** The start announcement of `handleCountdownEnd`. */
  function StartGameEnvelope(roomId: RoomId, charSet: string): GameMessage {
    Envelope(StartGame, roomId, 0, Some(charSet),
             map["message" := Str("Game has started"), "char_set" := Str(charSet),
                 "round" := Int(GameConfig.InitialRound), "time_limit" := Int(GameConfig.DefaultGameTimeLimit)])
  }

  /** The answer responses: the correct one reports the new fragment and
      the score, the wrong one the lives left. */
  function CorrectResponse(c: GameClient, answer: string, newCharSet: string, score: int): GameMessage
    reads c
  {
    Envelope(Answer, c.roomId, c.userId, None,
             map["correct" := Bool(true), "answer" := Str(answer), "newCharSet" := Str(newCharSet), "score" := Int(score)])
  }

  function WrongResponse(c: GameClient, answer: string, lives: int): GameMessage
    reads c
  {
    Envelope(Answer, c.roomId, c.userId, None,
             map["correct" := Bool(false), "answer" := Str(answer), "lives" := Int(lives)])
  }

  /** `msg.Payload[key]` of an envelope, Go's nil when absent. */
  function BodyValue(msg: GameMessage, key: string): (v: Value)
    requires msg.Envelope?
    ensures key !in msg.body ==> v == Nil
    ensures key in msg.body ==> v == msg.body[key]
  {
    if key in msg.body then msg.body[key] else Nil
  }

  /** `BroadcastMessage`: the message is stamped with the sender's user
      and room. */
  function StampedEnvelope(c: GameClient, msg: GameMessage): (m: GameMessage)
    requires msg.Envelope?
    reads c
    ensures m.Envelope? && m.roomId == c.roomId && m.userId == c.userId
    ensures m.msgType == msg.msgType && m.body == msg.body && m.charSet == msg.charSet
  {
    msg.(userId := c.userId, roomId := c.roomId)
  }

  /** The announcements of a room's first register: the armed countdown,
      the full two minutes to the (now non-empty) room, and the join. */
  function FoundingEffects(client: GameClient): seq<Effect>
    reads client
  {
    [CountdownArmed(client.roomId, GameConfig.DefaultCountdownTime),
     ToRoom(client.roomId, TimerStartedEnvelope(client.roomId, GameConfig.DefaultCountdownSecs)),
     ToRoom(client.roomId, MembershipEnvelope(UserJoined, client, "Room created and joined"))]
  }

  /** The announcements of a register into a known room: none for a
      returning user; for a new one the time left while a countdown runs
      (when positive), then the join. */
  function SeatingEffects(s: GameRoomState, client: GameClient, now: int): seq<Effect>
    reads client
  {
    if IsPlayerInRoom(s, client.userId) then []
    else
      var remaining := SecondsUntil(s.countdownEndTime, now);
      (if s.countdownStarted && !s.started && remaining > 0
       then [ToRoom(client.roomId, TimerStartedEnvelope(client.roomId, remaining))] else [])
      + [ToRoom(client.roomId, MembershipEnvelope(UserJoined, client, "User joined the room"))]
  }

  /** Registering a client and storing a well-formed state for its room
      keeps the pool's invariant. */
  lemma RegisterKeepsValid(states: map<RoomId, GameRoomState>, m: map<RoomId, map<UserId, GameClient>>,
                           c: GameClient, s: GameRoomState)
    requires m.Keys <= states.Keys && ClientPoolHelper.NoEmptyRooms(m)
    requires forall r :: r in states ==> states[r].roomId == r && WellFormed(states[r])
    requires s.roomId == c.roomId && WellFormed(s)
    ensures var m' := ClientPoolHelper.Registered(m, c.roomId, c.userId, c);
      var states' := states[c.roomId := s];
      && m'.Keys <= states'.Keys && ClientPoolHelper.NoEmptyRooms(m')
      && forall r :: r in states' ==> states'[r].roomId == r && WellFormed(states'[r])
  {
    ClientPoolHelper.RegisteredShape(m, c.roomId, c.userId, c);
  }

  /** A correct answer from `c` on the room state `s`: the room ends as
      the scored state (new fragment, one more point) with the turn passed
      on, and the effects are the answer report (stamped with the sender)
      for the fan-out loop, the turn-ended notice and the next turn's
      effects. */
  ghost predicate CorrectAnswerStep(s: GameRoomState, c: GameClient, answer: string, newCharSet: string,
                                    fragment: string, t: GameRoomState, added: seq<Effect>)
    reads c
  {
    WellFormed(s) &&
    var scored := Scored(s, c.userId, newCharSet);
    && t == AfterNextTurn(scored, t.winnerId)
    && added == [ToBroadcastChannel(StampedEnvelope(c, CorrectResponse(c, answer, newCharSet, GetOr0(scored.points, c.userId))))]
                + [ToRoom(c.roomId, TurnEndedEnvelope(scored, c.userId, "correct_answer"))]
                + NextTurnEffects(scored, t.winnerId, fragment)
  }

  /** A wrong answer from `c` on the room state `s`: with `d` the state
      after the lost life, the effects start with the report of the lives
      left and the turn-ended notice; then the game ends if at most one
      player is alive, the turn passes on if the answerer is out and holds
      it, and otherwise `d` stays. */
  ghost predicate WrongAnswerStep(s: GameRoomState, c: GameClient, answer: string, fragment: string,
                                  t: GameRoomState, added: seq<Effect>)
    reads c
  {
    WellFormed(Decremented(s, c.userId)) &&
    var d := Decremented(s, c.userId);
    var announced := [ToBroadcastChannel(StampedEnvelope(c, WrongResponse(c, answer, GetOr0(d.lives, c.userId))))]
                     + [ToRoom(c.roomId, TurnEndedEnvelope(d, c.userId, "wrong_answer"))];
    if GameOverCondition(d.lives) then
      EndedAs(d, t) && added == announced + [ToRoom(c.roomId, GameOverEnvelope(d, t.winnerId))]
    else if GetOr0(d.lives, c.userId) == 0 && d.players[d.turnIndex] == c.userId then
      t == AfterNextTurn(d, t.winnerId) && added == announced + NextTurnEffects(d, t.winnerId, fragment)
    else
      t == d && added == announced
  }

  /** The pool step around a room step: only the sender's room changed and
      the outbox only grew. */
  ghost predicate SenderRoomStep(states: map<RoomId, GameRoomState>, out: seq<Effect>, c: GameClient,
                                 states': map<RoomId, GameRoomState>, out': seq<Effect>)
    reads c
  {
    && c.roomId in states && c.roomId in states'
    && states' == states[c.roomId := states'[c.roomId]]
    && |out| <= |out'| && out'[..|out|] == out
  }

  /** After a correct answer from `c`, on the pool's states and outbox. */
  ghost predicate CorrectAnswerOutcome(states: map<RoomId, GameRoomState>, out: seq<Effect>, c: GameClient,
                                       answer: string, newCharSet: string, fragment: string,
                                       states': map<RoomId, GameRoomState>, out': seq<Effect>)
    reads c
  {
    && SenderRoomStep(states, out, c, states', out')
    && CorrectAnswerStep(states[c.roomId], c, answer, newCharSet, fragment, states'[c.roomId], out'[|out|..])
  }

  /** After a wrong answer from `c`, on the pool's states and outbox. */
  ghost predicate WrongAnswerOutcome(states: map<RoomId, GameRoomState>, out: seq<Effect>, c: GameClient,
                                     answer: string, fragment: string,
                                     states': map<RoomId, GameRoomState>, out': seq<Effect>)
    reads c
  {
    && SenderRoomStep(states, out, c, states', out')
    && WrongAnswerStep(states[c.roomId], c, answer, fragment, states'[c.roomId], out'[|out|..])
  }

  /** What `handleAnswerMessage` does with `msg` from `c`: nothing unless
      the room's game is running and the payload holds a string answer;
      otherwise the correct or the wrong outcome, as the answer passes
      `validateAnswer` against the room's fragment. */
  ghost predicate AnswerStepped(states: map<RoomId, GameRoomState>, out: seq<Effect>, c: GameClient, msg: GameMessage,
                                dictionary: set<string>, newCharSet: string, fragment: string,
                                states': map<RoomId, GameRoomState>, out': seq<Effect>)
    requires msg.Envelope?
    reads c
  {
    if IsGameActive(Lookup(states, c.roomId)) && BodyValue(msg, "answer").Str? then
      var answer := BodyValue(msg, "answer").s;
      if WebsocketGameManager.ValidateAnswer(dictionary, states[c.roomId].charSet, answer)
      then CorrectAnswerOutcome(states, out, c, answer, newCharSet, fragment, states', out')
      else WrongAnswerOutcome(states, out, c, answer, fragment, states', out')
    else states' == states && out' == out
  }

  /** A correct answer scores exactly one point for the answerer and
      changes no one else's points, no lives and no player. */
  lemma CorrectAnswerScores(states: map<RoomId, GameRoomState>, out: seq<Effect>, c: GameClient,
                            answer: string, newCharSet: string, fragment: string,
                            states': map<RoomId, GameRoomState>, out': seq<Effect>)
    requires CorrectAnswerOutcome(states, out, c, answer, newCharSet, fragment, states', out')
    ensures var s, t := states[c.roomId], states'[c.roomId];
      && t.players == s.players && t.lives == s.lives
      && GetOr0(t.points, c.userId) == GetOr0(s.points, c.userId) + 1
      && (forall v :: v != c.userId ==> GetOr0(t.points, v) == GetOr0(s.points, v))
    ensures out'[..|out|] == out && out'[|out|].ToBroadcastChannel?
  {
    var s := states[c.roomId];
    ScoredKeeps(s, c.userId, newCharSet);
    AfterNextTurnKeepsScores(Scored(s, c.userId, newCharSet), states'[c.roomId].winnerId);
  }

  /** A wrong answer costs the answerer exactly one life, changes no one
      else's lives and no points or players, whichever of the three
      outcomes follows. */
  lemma WrongAnswerCostsALife(states: map<RoomId, GameRoomState>, out: seq<Effect>, c: GameClient,
                              answer: string, fragment: string,
                              states': map<RoomId, GameRoomState>, out': seq<Effect>)
    requires WrongAnswerOutcome(states, out, c, answer, fragment, states', out')
    ensures var s, t := states[c.roomId], states'[c.roomId];
      && t.players == s.players && t.points == s.points
      && GetOr0(t.lives, c.userId) == GetOr0(s.lives, c.userId) - 1
      && (forall v :: v != c.userId ==> GetOr0(t.lives, v) == GetOr0(s.lives, v))
    ensures out'[..|out|] == out && out'[|out|].ToBroadcastChannel?
  {
    var s := states[c.roomId];
    var d := Decremented(s, c.userId);
    DecrementedKeeps(s, c.userId);
    if !GameOverCondition(d.lives) && GetOr0(d.lives, c.userId) == 0 && d.players[d.turnIndex] == c.userId {
      AfterNextTurnKeepsScores(d, states'[c.roomId].winnerId);
    }
  }

  /** The use case over `state` after a correct answer from `uid`:
      `handleSuccessfulAnswer`, returning the state to write back and what
      the use case emitted. */
  method PlaySuccessfulAnswer(state: GameRoomState, uid: UserId, answer: string, fragment: string)
    returns (room: GameRoomState, effects: seq<Effect>)
    requires WellFormed(state)
    ensures room == AfterNextTurn(state, room.winnerId) && WellFormed(room) && room.roomId == state.roomId
    ensures effects == [ToRoom(state.roomId, TurnEndedEnvelope(state, uid, "correct_answer"))]
                       + NextTurnEffects(state, room.winnerId, fragment)
  {
    var game := new GameUsecase(state);
    game.HandleSuccessfulAnswer(uid, answer, state.charSet, fragment);
    AfterNextTurnKeepsScores(state, game.room.winnerId);
    room, effects := game.room, game.outbox;
  }

  /** The use case over `state` after a wrong answer from `uid`:
      `handleWrongAnswer`, returning the state to write back and what the
      use case emitted. */
  method PlayWrongAnswer(state: GameRoomState, uid: UserId, answer: string, fragment: string)
    returns (room: GameRoomState, effects: seq<Effect>)
    requires WellFormed(state)
    ensures WellFormed(room) && room.roomId == state.roomId
    ensures var announced := [ToRoom(state.roomId, TurnEndedEnvelope(state, uid, "wrong_answer"))];
      if GameOverCondition(state.lives) then
        EndedAs(state, room) && effects == announced + [ToRoom(state.roomId, GameOverEnvelope(state, room.winnerId))]
      else if GetOr0(state.lives, uid) == 0 && state.players[state.turnIndex] == uid then
        room == AfterNextTurn(state, room.winnerId) && effects == announced + NextTurnEffects(state, room.winnerId, fragment)
      else
        room == state && effects == announced
  {
    var game := new GameUsecase(state);
    game.HandleWrongAnswer(uid, answer, fragment);
    if !GameOverCondition(state.lives) && GetOr0(state.lives, uid) == 0 && state.players[state.turnIndex] == uid {
      AfterNextTurnKeepsScores(state, game.room.winnerId);
    }
    room, effects := game.room, game.outbox;
  }

  /** `handleCorrectAnswer` on the sender's state: the new fragment and
      the point, the stamped report for the fan-out loop, then the use
      case passes the turn. Returns the state to write back and the
      effects in order. */
  method PlayCorrectAnswer(state: GameRoomState, c: GameClient, answer: string, newCharSet: string, fragment: string)
    returns (room: GameRoomState, effects: seq<Effect>)
    requires WellFormed(state) && state.roomId == c.roomId
    ensures WellFormed(room) && room.roomId == state.roomId
    ensures CorrectAnswerStep(state, c, answer, newCharSet, fragment, room, effects)
  {
    var gameRoomState := state;
    ScoredKeeps(gameRoomState, c.userId, newCharSet);
    gameRoomState := gameRoomState.(charSet := newCharSet);
    gameRoomState := gameRoomState.(points := gameRoomState.points[c.userId := GetOr0(gameRoomState.points, c.userId) + 1]);
    var report := StampedEnvelope(c, CorrectResponse(c, answer, gameRoomState.charSet, gameRoomState.points[c.userId]));
    var played;
    room, played := PlaySuccessfulAnswer(gameRoomState, c.userId, answer, fragment);
    effects := [ToBroadcastChannel(report)] + played;
  }

  /** `handleWrongAnswer` on the sender's state: the lost life, the
      stamped report for the fan-out loop, then the use case's
      wrong-answer rule. */
  method PlayWrongAnswerFrom(state: GameRoomState, c: GameClient, answer: string, fragment: string)
    returns (room: GameRoomState, effects: seq<Effect>)
    requires WellFormed(state) && state.roomId == c.roomId
    ensures WellFormed(room) && room.roomId == state.roomId
    ensures WrongAnswerStep(state, c, answer, fragment, room, effects)
  {
    DecrementedKeeps(state, c.userId);
    var gameRoomState := Decremented(state, c.userId);
    var report := StampedEnvelope(c, WrongResponse(c, answer, GetOr0(gameRoomState.lives, c.userId)));
    var played;
    room, played := PlayWrongAnswer(gameRoomState, c.userId, answer, fragment);
    effects := [ToBroadcastChannel(report)] + played;
  }

  class GamePool {
    const rooms: ClientPoolHelper.PoolMap<GameClient>
    var roomsState: map<RoomId, GameRoomState>
    var outbox: seq<Effect>

    constructor NewGamePool()
      ensures fresh(rooms) && rooms.rooms == map[] && roomsState == map[] && outbox == []
    {
      rooms := new ClientPoolHelper.PoolMap<GameClient>();
      roomsState := map[];
      outbox := [];
    }

    /** Every room with clients has a state, every state is well formed
        and carries its room id, and no room is registered empty. */
    predicate Valid()
      reads this, rooms
    {
      && rooms.rooms.Keys <= roomsState.Keys
      && (forall r :: r in roomsState ==> roomsState[r].roomId == r && WellFormed(roomsState[r]))
      && ClientPoolHelper.NoEmptyRooms(rooms.rooms)
    }

    /** `RoomCount`: the number of clients of the room. */
    function RoomCount(roomID: RoomId): (n: nat)
      reads this, rooms
      ensures n == 0 <==> roomID !in rooms.rooms || rooms.rooms[roomID] == map[]
      ensures roomID in rooms.rooms ==> n == |rooms.rooms[roomID]|
    {
      rooms.Count(roomID)
    }

    /** `GetRemainingCountdownTime`: 0 for a room without state, without a
        running countdown or already started; otherwise the whole seconds
        left, never negative. */
    function GetRemainingCountdownTime(roomID: RoomId, now: int): (r: nat)
      reads this
      ensures roomID !in roomsState || !roomsState[roomID].countdownStarted || roomsState[roomID].started ==> r == 0
      ensures roomID in roomsState && roomsState[roomID].countdownStarted && !roomsState[roomID].started ==>
                r == if SecondsUntil(roomsState[roomID].countdownEndTime, now) < 0 then 0
                     else SecondsUntil(roomsState[roomID].countdownEndTime, now)
      ensures r == RemainingCountdown(roomsState, roomID, now)
    {
      if roomID !in roomsState || !roomsState[roomID].countdownStarted || roomsState[roomID].started then 0
      else
        var remainingTime := SecondsUntil(roomsState[roomID].countdownEndTime, now);
        if remainingTime < 0 then 0 else remainingTime
    }

    /** `BroadcastTimerStarted`. */
    method BroadcastTimerStarted(roomID: RoomId, duration: int)
      modifies this
      ensures outbox == old(outbox) + TimerStartedEffects(RoomCount(roomID), roomID, duration)
      ensures roomsState == old(roomsState)
    {
      if RoomCount(roomID) == 0 {
        return;
      }
      outbox := outbox + [ToRoom(roomID, TimerStartedEnvelope(roomID, duration))];
    }

    /** `BroadcastToRoom`. */
    method BroadcastToRoom(roomID: RoomId, msg: GameMessage)
      modifies this
      ensures outbox == old(outbox) + [ToRoom(roomID, msg)]
      ensures roomsState == old(roomsState)
    {
      outbox := outbox + [ToRoom(roomID, msg)];
    }

    /** The register case of `Start`: the client is registered; a room
        without state gets the client as sole player, an armed two-minute
        countdown, and both announcements; a known room seats a new user,
        who hears the time left and is announced, while a returning user
        changes nothing. */
    method HandleRegister(client: GameClient, now: int)
      requires Valid()
      modifies this, rooms
      ensures Valid()
      ensures rooms.rooms == ClientPoolHelper.Registered(old(rooms.rooms), client.roomId, client.userId, client)
      ensures client.roomId !in old(roomsState) ==>
                && roomsState == old(roomsState)[client.roomId := CreatedRoom(client.roomId, client.userId, now).(countdownTimer := true)]
                && outbox == old(outbox) + FoundingEffects(client)
      ensures client.roomId in old(roomsState) ==>
                && roomsState == old(roomsState)[client.roomId := Joined(old(roomsState)[client.roomId], client.userId)]
                && outbox == old(outbox) + SeatingEffects(old(roomsState)[client.roomId], client, now)
    {
      ClientPoolHelper.RegisteredShape(rooms.rooms, client.roomId, client.userId, client);
      rooms.RegisterClient(client.roomId, client.userId, client);
      if client.roomId !in roomsState {
        FoundRoom(client, now);
      } else {
        JoinedKeeps(roomsState[client.roomId], client.userId);
        SeatInRoom(client, now);
      }
      RegisterKeepsValid(old(roomsState), old(rooms.rooms), client, roomsState[client.roomId]);
    }

    /** The first branch of the register case, after registration. */
    method FoundRoom(client: GameClient, now: int)
      requires client.roomId in rooms.rooms && ClientPoolHelper.NoEmptyRooms(rooms.rooms)
      modifies this
      ensures roomsState == old(roomsState)[client.roomId := CreatedRoom(client.roomId, client.userId, now).(countdownTimer := true)]
      ensures outbox == old(outbox) + FoundingEffects(client)
    {
      var gameRoomState := CreatedRoom(client.roomId, client.userId, now);
      gameRoomState := gameRoomState.(countdownTimer := true);
      roomsState := roomsState[client.roomId := gameRoomState];
      outbox := outbox + [CountdownArmed(client.roomId, GameConfig.DefaultCountdownTime)];
      assert RoomCount(client.roomId) > 0;
      BroadcastTimerStarted(client.roomId, GameConfig.DefaultCountdownSecs);
      BroadcastToRoom(client.roomId, MembershipEnvelope(UserJoined, client, "Room created and joined"));
    }

    /** The second branch of the register case, after registration. */
    method SeatInRoom(client: GameClient, now: int)
      requires client.roomId in rooms.rooms && client.roomId in roomsState
      requires ClientPoolHelper.NoEmptyRooms(rooms.rooms)
      modifies this
      ensures roomsState == old(roomsState)[client.roomId := Joined(old(roomsState)[client.roomId], client.userId)]
      ensures outbox == old(outbox) + SeatingEffects(old(roomsState)[client.roomId], client, now)
    {
      var gameRoomState := roomsState[client.roomId];
      if IsPlayerInRoom(gameRoomState, client.userId) {
        return;
      }
      gameRoomState := gameRoomState.(players := gameRoomState.players + [client.userId],
                                      lives := gameRoomState.lives[client.userId := 3],
                                      points := gameRoomState.points[client.userId := 0]);
      roomsState := roomsState[client.roomId := gameRoomState];
      if gameRoomState.countdownStarted && !gameRoomState.started {
        var remainingTime := SecondsUntil(gameRoomState.countdownEndTime, now);
        if remainingTime > 0 {
          assert RoomCount(client.roomId) > 0;
          BroadcastTimerStarted(client.roomId, remainingTime);
        }
      }
      BroadcastToRoom(client.roomId, MembershipEnvelope(UserJoined, client, "User joined the room"));
    }

    /** The unregister case of `Start`: the room hears that the user left,
        the client is removed, and a room left with no clients has its
        timer stopped and its state deleted. */
    method HandleUnregister(client: GameClient)
      requires Valid()
      modifies this, rooms
      ensures Valid()
      ensures var r := client.roomId;
        && rooms.rooms == ClientPoolHelper.Unregistered(old(rooms.rooms), r, client.userId)
        && (r in rooms.rooms ==> roomsState == old(roomsState))
        && (r !in rooms.rooms ==> roomsState == old(roomsState) - {r})
        && outbox == old(outbox) + [ToRoom(r, MembershipEnvelope(UserLeft, client, "User left the room"))]
             + (if r !in rooms.rooms && r in old(roomsState) && old(roomsState)[r].countdownTimer
                then [CountdownStopped(client.roomId)] else [])
    {
      BroadcastToRoom(client.roomId, MembershipEnvelope(UserLeft, client, "User left the room"));
      ClientPoolHelper.UnregisteredShape(rooms.rooms, client.roomId, client.userId);
      rooms.UnregisterClient(client.roomId, client.userId);
      if RoomCount(client.roomId) == 0 {
        if client.roomId in roomsState && roomsState[client.roomId].countdownTimer {
          outbox := outbox + [CountdownStopped(client.roomId)];
        }
        roomsState := roomsState - {client.roomId};
      }
    }

    /** The broadcast case of `Start`: the message is written to every
        client of the room it names. */
    method HandleBroadcast(msg: GameMessage)
      requires msg.Envelope?
      modifies this
      ensures outbox == old(outbox) + [ToRoom(msg.roomId, msg)]
      ensures roomsState == old(roomsState)
    {
      BroadcastToRoom(msg.roomId, msg);
    }

    /** `JoinRoom`: the client's room is set first; a room with ten or more
        clients takes nothing more; otherwise the client is handed to the
        register case and told the time left on a running countdown. */
    method JoinRoom(c: GameClient, roomID: RoomId, now: int)
      modifies this, c
      ensures c.roomId == roomID
      ensures roomsState == old(roomsState)
      ensures RoomCount(roomID) >= GameConfig.DefaultMaxPlayers ==> outbox == old(outbox)
      ensures RoomCount(roomID) < GameConfig.DefaultMaxPlayers ==>
                var remaining := GetRemainingCountdownTime(roomID, now);
                outbox == old(outbox) + [ToRegisterChannel(c.userId, roomID)]
                  + (if remaining > 0 then [ToClient(c.userId, TimerStartedEnvelope(roomID, remaining))] else [])
    {
      c.roomId := roomID;
      if RoomCount(roomID) >= GameConfig.DefaultMaxPlayers {
        return;
      }
      outbox := outbox + [ToRegisterChannel(c.userId, c.roomId)];
      var remainingTime := GetRemainingCountdownTime(roomID, now);
      if remainingTime > 0 {
        outbox := outbox + [ToClient(c.userId, TimerStartedEnvelope(roomID, remainingTime))];
      }
    }

    /** `LeaveRoom`. */
    method LeaveRoom(c: GameClient)
      modifies this
      ensures outbox == old(outbox) + [ToUnregisterChannel(c.userId, c.roomId)]
      ensures roomsState == old(roomsState)
    {
      outbox := outbox + [ToUnregisterChannel(c.userId, c.roomId)];
    }

    /** `BroadcastMessage`. */
    method BroadcastMessage(c: GameClient, msg: GameMessage)
      requires msg.Envelope?
      modifies this
      ensures outbox == old(outbox) + [ToBroadcastChannel(StampedEnvelope(c, msg))]
      ensures roomsState == old(roomsState)
    {
      var stamped := msg.(userId := c.userId, roomId := c.roomId);
      outbox := outbox + [ToBroadcastChannel(stamped)];
    }

    /** `handleJoinMessage`: room id 0 is refused; any other is joined. */
    method HandleJoinMessage(c: GameClient, msg: GameMessage, now: int) returns (ok: bool)
      requires msg.Envelope?
      modifies this, c
      ensures ok <==> msg.roomId != 0
      ensures !ok ==> outbox == old(outbox) && c.roomId == old(c.roomId)
      ensures ok ==> c.roomId == msg.roomId
      ensures roomsState == old(roomsState)
    {
      if msg.roomId == 0 {
        return false;
      }
      JoinRoom(c, msg.roomId, now);
      ok := true;
    }

    /** `handleAnswerMessage`: nothing happens unless the room's game is
        running and the payload holds a string answer. A correct answer
        replaces the fragment, scores a point, is reported with the new
        fragment and score, and passes the turn on; a wrong one costs a
        life, is reported with the lives left, and goes through the
        wrong-answer rules on the decremented state. */
    method HandleAnswerMessage(c: GameClient, msg: GameMessage, dictionary: set<string>,
                               newCharSet: string, fragment: string) returns (ok: bool)
      requires Valid() && msg.Envelope?
      modifies this
      ensures Valid()
      ensures ok <==> IsGameActive(Lookup(old(roomsState), c.roomId)) && BodyValue(msg, "answer").Str?
      ensures !ok ==> roomsState == old(roomsState) && outbox == old(outbox)
      ensures ok && WebsocketGameManager.ValidateAnswer(dictionary, old(roomsState)[c.roomId].charSet, BodyValue(msg, "answer").s) ==>
                CorrectAnswerOutcome(old(roomsState), old(outbox), c, BodyValue(msg, "answer").s, newCharSet, fragment,
                                     roomsState, outbox)
      ensures ok && !WebsocketGameManager.ValidateAnswer(dictionary, old(roomsState)[c.roomId].charSet, BodyValue(msg, "answer").s) ==>
                WrongAnswerOutcome(old(roomsState), old(outbox), c, BodyValue(msg, "answer").s, fragment,
                                   roomsState, outbox)
      ensures AnswerStepped(old(roomsState), old(outbox), c, msg, dictionary, newCharSet, fragment, roomsState, outbox)
    {
      var found := Lookup(roomsState, c.roomId);
      if !IsGameActive(found) {
        return false;
      }
      var answerRaw := BodyValue(msg, "answer");
      if !answerRaw.Str? {
        return false;
      }
      var answer := answerRaw.s;
      if WebsocketGameManager.ValidateAnswer(dictionary, found.value.charSet, answer) {
        HandleCorrectAnswer(c, answer, newCharSet, fragment);
      } else {
        HandleWrongAnswer(c, answer, fragment);
      }
      ok := true;
    }

    /** The correct-answer branch of `handleAnswerMessage`. */
    method HandleCorrectAnswer(c: GameClient, answer: string, newCharSet: string, fragment: string)
      requires Valid() && c.roomId in roomsState
      modifies this
      ensures Valid()
      ensures CorrectAnswerOutcome(old(roomsState), old(outbox), c, answer, newCharSet, fragment, roomsState, outbox)
    {
      assert roomsState[c.roomId].roomId == c.roomId;
      var room, effects := PlayCorrectAnswer(roomsState[c.roomId], c, answer, newCharSet, fragment);
      roomsState := roomsState[c.roomId := room];
      outbox := outbox + effects;
      assert outbox[|old(outbox)|..] == effects;
    }

    /** The wrong-answer branch of `handleAnswerMessage`. */
    method HandleWrongAnswer(c: GameClient, answer: string, fragment: string)
      requires Valid() && c.roomId in roomsState
      modifies this
      ensures Valid()
      ensures WrongAnswerOutcome(old(roomsState), old(outbox), c, answer, fragment, roomsState, outbox)
    {
      assert roomsState[c.roomId].roomId == c.roomId;
      var room, effects := PlayWrongAnswerFrom(roomsState[c.roomId], c, answer, fragment);
      roomsState := roomsState[c.roomId := room];
      outbox := outbox + effects;
      assert outbox[|old(outbox)|..] == effects;
    }

    /** `handleTypingMessage`: nothing for a room without state; otherwise
        the text (nil when absent) is sent to the fan-out loop. */
    method HandleTypingMessage(c: GameClient, msg: GameMessage) returns (ok: bool)
      requires msg.Envelope?
      modifies this
      ensures ok <==> c.roomId in old(roomsState)
      ensures ok ==> outbox == old(outbox) + [ToBroadcastChannel(Envelope(Typing, c.roomId, c.userId, None,
                                                                  map["text" := BodyValue(msg, "text")]))]
      ensures !ok ==> outbox == old(outbox)
      ensures roomsState == old(roomsState)
    {
      if c.roomId !in roomsState {
        return false;
      }
      outbox := outbox + [ToBroadcastChannel(Envelope(Typing, c.roomId, c.userId, None,
                                                      map["text" := BodyValue(msg, "text")]))];
      ok := true;
    }

    /** `handleCountdownEnd`: a missing or started room is left alone;
        otherwise the game starts with the drawn fragment, the start is
        announced, and the use case plays the first turn. */
    method HandleCountdownEnd(roomID: RoomId, charSet: string, fragment: string)
      requires Valid()
      modifies this
      ensures Valid()
      ensures !CanStartGame(Lookup(old(roomsState), roomID)) ==> roomsState == old(roomsState) && outbox == old(outbox)
      ensures CanStartGame(Lookup(old(roomsState), roomID)) ==>
                var t := StartedGame(old(roomsState)[roomID], charSet);
                && roomID in roomsState
                && roomsState == old(roomsState)[roomID := AfterNextTurn(t, roomsState[roomID].winnerId)]
                && outbox == old(outbox) + [ToRoom(roomID, StartGameEnvelope(roomID, charSet))]
                     + NextTurnEffects(t, roomsState[roomID].winnerId, fragment)
    {
      var found := Lookup(roomsState, roomID);
      if !CanStartGame(found) {
        return;
      }
      var gameRoomState := found.value;
      StartedGameKeeps(gameRoomState, charSet);
      gameRoomState := gameRoomState.(started := true, charSet := charSet, round := 1, timeLimit := 19,
                                      countdownStarted := false, turnIndex := 0);
      BroadcastToRoom(roomID, StartGameEnvelope(roomID, gameRoomState.charSet));
      var game := new GameUsecase(gameRoomState);
      game.StartNextTurn(fragment);
      AfterNextTurnKeepsScores(gameRoomState, game.room.winnerId);
      roomsState := roomsState[roomID := game.room];
      outbox := outbox + game.outbox;
    }

    /** One message of the `Read` loop: a join moves the client unless it
        names room 0, an answer has its handler's outcome, a leave goes to
        the unregister channel, typing is relayed; any other type changes
        nothing. */
    method ReadStep(c: GameClient, msg: GameMessage, now: int,
                    dictionary: set<string>, newCharSet: string, fragment: string)
      requires Valid() && msg.Envelope?
      modifies this, c
      ensures Valid()
      ensures msg.msgType != Join ==> c.roomId == old(c.roomId)
      ensures msg.msgType == Join && msg.roomId != 0 ==> c.roomId == msg.roomId
      ensures msg.msgType == Leave ==> outbox == old(outbox) + [ToUnregisterChannel(c.userId, c.roomId)]
      ensures msg.msgType in {Join, Leave, Typing} ==> roomsState == old(roomsState)
      ensures msg.msgType == Answer ==>
                AnswerStepped(old(roomsState), old(outbox), c, msg, dictionary, newCharSet, fragment, roomsState, outbox)
      ensures msg.msgType == Typing ==>
                && (c.roomId in old(roomsState) ==>
                      outbox == old(outbox) + [ToBroadcastChannel(Envelope(Typing, c.roomId, c.userId, None,
                                                                           map["text" := BodyValue(msg, "text")]))])
                && (c.roomId !in old(roomsState) ==> outbox == old(outbox))
      ensures msg.msgType !in {Join, Answer, Leave, Typing} ==>
                roomsState == old(roomsState) && outbox == old(outbox)
    {
      match msg.msgType {
        case Join =>
          var _ := HandleJoinMessage(c, msg, now);
        case Answer =>
          var _ := HandleAnswerMessage(c, msg, dictionary, newCharSet, fragment);
        case Leave =>
          LeaveRoom(c);
        case Typing =>
          var _ := HandleTypingMessage(c, msg);
        case _ =>
      }
    }
  }
}
