/** The use case of websocket/game_manager.go: the turn engine over a room
    of the pool of websocket/game_pool.go, with typed messages, plus the
    room bookkeeping the pool delegates to it (joins, countdown, cleanup,
    answers). A use case is the pair of its pool and its room id; it works
    on `pool.roomsState[roomId]`. The Go use case holds the state it was
    created with, which is the stored one until `cleanupEmptyRoom` deletes
    it; the model covers the use case only while its room has a state.
    Fragments, the clock and the dictionary are inputs; the fragments are
    arbitrary strings, not tied to `util.GenerateRandomWord`. */
module WebsocketGameManager {
  import opened GoValues
  import opened GoStrings
  import opened GameRoomStateModel
  import opened GameMessageModel
  import opened Outbox
  import opened TurnRules
  import opened RoomLifecycle
  import opened GameClientModel
  import opened WebsocketGamePool
  import CharsetUtil
  import ClientPoolHelper
  import GameConfig

  // ----- The messages of this iteration -----

  function NextTurnTyped(s: GameRoomState, uid: UserId, fragment: string): GameMessage {
    NewNextTurnMessage(s.roomId, uid, fragment, s.timeLimit, s.round)
  }

  function TurnEndedTyped(s: GameRoomState, uid: UserId, reason: string): GameMessage {
    NewTurnEndedMessage(s.roomId, uid, reason, GetOr0(s.lives, uid), s.round, GetOr0(s.points, uid))
  }

  function GameOverTyped(s: GameRoomState, winner: UserId): GameMessage {
    NewGameOverMessage(s.roomId, winner, FinalScores(s.points, s.lives))
  }

  /** What `startTurn` emits once the state `s` holds the new turn. */
  function TurnStartEffects(s: GameRoomState, uid: UserId, fragment: string): seq<Effect> {
    [ToRoom(s.roomId, NextTurnTyped(s, uid, fragment)),
     TurnTimerArmed(uid, s.timeLimit, Some(s.turnIndex))]
  }

  /** What `StartNextTurn` emits from `s`. */
  function NextTurnEffects(s: GameRoomState, winner: UserId, fragment: string): seq<Effect>
    requires WellFormed(s)
  {
    if !s.started then []
    else if GameOverCondition(s.lives) then [ToRoom(s.roomId, GameOverTyped(s, winner))]
    else
      AdvancedKeeps(s);
      var t := Advanced(s);
      TurnStartEffects(t, t.players[t.turnIndex], fragment)
  }

  /** What `BroadcastTimerStarted` writes to a room with `clients`
      clients: nothing to an empty room. */
  function TimerStartedEffects(clients: nat, roomId: RoomId, duration: int): seq<Effect> {
    if clients == 0 then [] else [ToRoom(roomId, NewTimerStartedMessage(roomId, duration))]
  }

  /** What `addPlayerToRoom` emits for a new player joining `s` from
      `clientRoom`: the time left while the countdown runs, then the
      joined announcement. */
  function JoinEffects(s: GameRoomState, clients: nat, userId: UserId, userName: string,
                       clientRoom: RoomId, now: int): seq<Effect>
  {
    var remaining := SecondsUntil(s.countdownEndTime, now);
    (if s.countdownStarted && !s.started && remaining > 0
     then TimerStartedEffects(clients, clientRoom, remaining) else [])
    + [ToRoom(clientRoom, NewUserJoinedMessage(userId, userName, clientRoom))]
  }

  // ----- Answers and payloads -----

  /** `validateAnswer`: the answer contains the room's fragment, ignoring
      case, and is a dictionary word. */
  function ValidateAnswer(dictionary: set<string>, charSet: string, answer: string): (r: bool)
    ensures r ==> ToLower(answer) in dictionary
    ensures charSet == [] ==> (r <==> ToLower(answer) in dictionary)
  {
    CharsetUtil.ContainsSubstring(answer, charSet) && CharsetUtil.IsWordValid(dictionary, answer)
  }

  /** An answer is accepted exactly when its lowercased form holds the
      lowercased fragment at some position and is in the dictionary. */
  lemma ValidateAnswerMeaning(dictionary: set<string>, charSet: string, answer: string)
    ensures ValidateAnswer(dictionary, charSet, answer) <==>
      (exists i :: OccursAt(ToLower(answer), ToLower(charSet), i)) && ToLower(answer) in dictionary
  {
    CharsetUtil.ContainsSubstringMeaning(answer, charSet);
  }

  /** `extractStringFromPayload`: the string under `key` of a payload map;
      None when the payload is not a map, the key is missing or the value
      is not a string. */
  function ExtractString(msg: GameMessage, key: string): (r: Option<string>)
    requires msg.Message?
    ensures r.Some? <==> msg.payload.Dynamic? && Field(msg.payload.value, key).Some?
                         && Field(msg.payload.value, key).value.Str?
    ensures r.Some? ==> Field(msg.payload.value, key) == Some(Str(r.value))
  {
    if msg.payload.Dynamic? then
      match Field(msg.payload.value, key)
      case Some(Str(text)) => Some(text)
      case _ => None
    else None
  }

  /** A payload value `uint(v)` is defined for: a JSON number must be a
      float64 above -1 and below 2^64 (one in (-1, 0) converts to 0). */
  predicate UintConvertible(v: Value) {
    v.Float64? ==> -1.0 < v.f < UintModulus as real
  }

  /** `extractUintFromPayload`: the id under `key` of a payload map,
      converted to `uint` from a float64, a uint or an int; None when the
      payload is not a map, the key is missing or the value has any other
      type. */
  function ExtractUint(msg: GameMessage, key: string): (r: Option<nat>)
    requires msg.Message?
    requires msg.payload.Dynamic? && Field(msg.payload.value, key).Some? ==>
               UintConvertible(Field(msg.payload.value, key).value)
    ensures r.Some? <==> msg.payload.Dynamic? && Field(msg.payload.value, key).Some?
                         && (Field(msg.payload.value, key).value.Float64?
                             || Field(msg.payload.value, key).value.Uint?
                             || Field(msg.payload.value, key).value.Int?)
    ensures r.Some? && Field(msg.payload.value, key).value.Float64? ==>
              r.value == Float64ToUint(Field(msg.payload.value, key).value.f)
    ensures r.Some? && Field(msg.payload.value, key).value.Uint? ==>
              r.value == Field(msg.payload.value, key).value.u
    ensures r.Some? && Field(msg.payload.value, key).value.Int? ==>
              r.value == IntToUint(Field(msg.payload.value, key).value.i)
  {
    if msg.payload.Dynamic? then
      match Field(msg.payload.value, key)
      case Some(Float64(f)) => Some(Float64ToUint(f))
      case Some(Uint(u)) => Some(u)
      case Some(Int(i)) => Some(IntToUint(i))
      case _ => None
    else None
  }

  /** `BroadcastMessage` as written: it writes the sender's ids into the
      payload asserted to be a `map[string]any`, which panics (None) for
      every typed payload. */
  function BroadcastMessageAsWritten(userId: UserId, roomId: RoomId, msg: GameMessage): (r: Option<GameMessage>)
    requires msg.Message?
    ensures r.Some? <==> msg.payload.Dynamic? && msg.payload.value.Object?
    ensures r.Some? ==> r.value == Stamped(userId, roomId, msg)
  {
    match msg.payload
    case Dynamic(Object(fields)) =>
      Some(Message(msg.msgType, Dynamic(Object(fields["user_id" := Uint(userId)]["room_id" := Uint(roomId)]))))
    case _ => None
  }

  /** The only messages `BroadcastMessage` receives are the answer
      responses of `processCorrectAnswer` and `processWrongAnswer`, and it
      panics on every one of them. */
  lemma AnswerBroadcastPanics(correct: bool, answer: string, roomId: RoomId, userId: UserId,
                              newCharSet: string, score: int, lives: int, sender: UserId, senderRoom: RoomId)
    ensures BroadcastMessageAsWritten(sender, senderRoom,
              NewAnswerResponseMessage(correct, answer, roomId, userId, newCharSet, score, lives)).None?
  {
  }

  /** The message `BroadcastMessage` evidently means to hand to the
      fan-out loop: the payload's JSON object with the sender's user and
      room ids written over it. */
  function Stamped(userId: UserId, roomId: RoomId, msg: GameMessage): (m: GameMessage)
    requires msg.Message?
    ensures m.Message? && m.msgType == msg.msgType && m.payload.Dynamic?
    ensures Field(m.payload.value, "user_id") == Some(Uint(userId))
    ensures Field(m.payload.value, "room_id") == Some(Uint(roomId))
    ensures forall k :: k != "user_id" && k != "room_id" ==> Field(m.payload.value, k) == Field(Wire(msg.payload), k)
  {
    var wire := Wire(msg.payload);
    var fields := if wire.Object? then wire.fields else map[];
    Message(msg.msgType, Dynamic(Object(fields["user_id" := Uint(userId)]["room_id" := Uint(roomId)])))
  }

  /** A stamped message reaches the sender's room through the fan-out loop
      as written, and keeps what the answer response tells the room. */
  lemma StampedAnswerIsDelivered(correct: bool, answer: string, roomId: RoomId, userId: UserId,
                                 newCharSet: string, score: int, lives: int, sender: UserId, senderRoom: RoomId)
    ensures var m := Stamped(sender, senderRoom, NewAnswerResponseMessage(correct, answer, roomId, userId, newCharSet, score, lives));
      && BroadcastRoom(m) == Some(senderRoom)
      && m.msgType == Answer
      && Field(m.payload.value, "correct") == Some(Bool(correct))
      && Field(m.payload.value, "answer") == Some(Str(answer))
  {
    var m := Stamped(sender, senderRoom, NewAnswerResponseMessage(correct, answer, roomId, userId, newCharSet, score, lives));
    assert Field(m.payload.value, "correct") == Field(Wire(NewAnswerResponseMessage(correct, answer, roomId, userId, newCharSet, score, lives).payload), "correct");
    assert Field(m.payload.value, "answer") == Field(Wire(NewAnswerResponseMessage(correct, answer, roomId, userId, newCharSet, score, lives).payload), "answer");
  }

  class GameUsecase {
    const pool: GamePool
    const roomId: RoomId

    /** `NewGameUsecase(pool, state)` for the state stored under `roomId`;
        its time limits are always the defaults 20 and 5, which TimeLimitFor
        uses. */
    constructor(pool: GamePool, roomId: RoomId)
      ensures this.pool == pool && this.roomId == roomId
    {
      this.pool := pool;
      this.roomId := roomId;
    }

    /** The use case's state. */
    function Room(): GameRoomState
      reads pool
      requires roomId in pool.roomsState
    {
      pool.roomsState[roomId]
    }

    /** The step stored `t` as the room's state, appended `added` to the
        outbox, and changed no other room and no use case. */
    twostate predicate Wrote(t: GameRoomState, added: seq<Effect>)
      reads pool
    {
      && pool.roomsState == old(pool.roomsState)[roomId := t]
      && pool.outbox == old(pool.outbox) + added
      && pool.usecaseRooms == old(pool.usecaseRooms)
    }

    /** `countAlivePlayers`. */
    method CountAlivePlayers() returns (count: nat)
      requires roomId in pool.roomsState
      ensures count == AliveCount(Room().lives)
    {
      count := CountAlive(pool.roomsState[roomId].lives);
    }

    /** `getFinalScores`. */
    method GetFinalScores() returns (scores: map<string, Value>)
      requires roomId in pool.roomsState
      ensures scores == FinalScores(Room().points, Room().lives)
    {
      scores := BuildFinalScores(pool.roomsState[roomId].points, pool.roomsState[roomId].lives);
    }

    /** `endGame`. */
    method EndGame(winner: UserId)
      requires roomId in pool.roomsState
      modifies pool
      ensures Wrote(Ended(old(Room()), winner), [ToRoom(old(Room()).roomId, GameOverTyped(old(Room()), winner))])
    {
      var s := pool.roomsState[roomId].(started := false, winnerId := winner);
      pool.roomsState := pool.roomsState[roomId := s];
      var scores := GetFinalScores();
      pool.outbox := pool.outbox + [ToRoom(s.roomId, NewGameOverMessage(s.roomId, winner, scores))];
    }

    /** `checkEndCondition`: the game ends exactly when at most one player
        is alive, with the sole survivor or a top scorer as winner. */
    method CheckEndCondition() returns (ended: bool)
      requires roomId in pool.roomsState
      modifies pool
      ensures roomId in pool.roomsState
      ensures ended <==> GameOverCondition(old(Room()).lives)
      ensures ended ==> EndedAs(old(Room()), Room())
                        && Wrote(Room(), [ToRoom(old(Room()).roomId, GameOverTyped(old(Room()), Room().winnerId))])
      ensures !ended ==> Wrote(old(Room()), [])
    {
      var s := pool.roomsState[roomId];
      var aliveCount, lastAlivePlayer, highestScorePlayer := ScanLives(s.lives, s.points);
      if aliveCount <= GameConfig.MinAlivePlayersForGameEnd {
        var winnerId := WinnerOf(aliveCount, lastAlivePlayer, highestScorePlayer);
        WinnerOfIsValid(s.lives, s.points, aliveCount, lastAlivePlayer, highestScorePlayer);
        EndGame(winnerId);
        return true;
      }
      assert pool.roomsState == old(pool.roomsState)[roomId := old(Room())];
      return false;
    }

    /** `startTurn`: `max(20 - Round, 5)` as the time limit, the next-turn
        announcement with a fresh fragment, and the player's timer. */
    method StartTurn(uid: UserId, fragment: string)
      requires roomId in pool.roomsState
      modifies pool
      ensures roomId in pool.roomsState
      ensures Room() == old(Room()).(timeLimit := TimeLimitFor(old(Room()).round))
      ensures Wrote(Room(), TurnStartEffects(Room(), uid, fragment))
    {
      var s := pool.roomsState[roomId];
      var limit := GameConfig.DefaultRoundTimeLimit - s.round;
      s := s.(timeLimit := if limit > GameConfig.DefaultMinTimeLimit then limit else GameConfig.DefaultMinTimeLimit);
      pool.roomsState := pool.roomsState[roomId := s];
      var currentTurnIndex := s.turnIndex;
      pool.outbox := pool.outbox + [ToRoom(s.roomId, NewNextTurnMessage(s.roomId, uid, fragment, s.timeLimit, s.round)),
                                    TurnTimerArmed(uid, s.timeLimit, Some(currentTurnIndex))];
    }

    /** `StartNextTurn`. */
    method StartNextTurn(fragment: string)
      requires roomId in pool.roomsState && WellFormed(Room())
      modifies pool
      ensures roomId in pool.roomsState
      ensures Room() == AfterNextTurn(old(Room()), Room().winnerId)
      ensures old(Room()).started && GameOverCondition(old(Room()).lives) ==>
                ValidWinner(old(Room()).lives, old(Room()).points, Room().winnerId)
      ensures Wrote(Room(), NextTurnEffects(old(Room()), Room().winnerId, fragment))
      ensures WellFormed(Room())
    {
      var s := pool.roomsState[roomId];
      AfterNextTurnKeeps(s, s.winnerId);
      if !s.started {
        assert pool.roomsState == old(pool.roomsState)[roomId := s];
        return;
      }
      var ended := CheckEndCondition();
      if ended {
        AfterNextTurnKeeps(s, Room().winnerId);
        return;
      }
      NotOverFindsPlayer(s);
      AdvancedKeeps(s);
      var index, newRound, selected := WalkTurn(s.players, s.lives, s.turnIndex, s.round);
      pool.roomsState := pool.roomsState[roomId := s.(turnIndex := index, round := newRound)];
      StartTurn(selected.value, fragment);
    }

    /** The timer `startTurn` armed fires for the player and turn index it
        captured: only a turn that has not moved on costs the player a
        life, then the turn passes on. */
    method OnTurnTimeout(uid: UserId, capturedIndex: int, fragment: string)
      requires roomId in pool.roomsState && WellFormed(Room())
      modifies pool
      ensures roomId in pool.roomsState
      ensures !(old(Room()).turnIndex == capturedIndex && old(Room()).players[old(Room()).turnIndex] == uid) ==>
                Wrote(old(Room()), [])
      ensures old(Room()).turnIndex == capturedIndex && old(Room()).players[old(Room()).turnIndex] == uid ==>
                var d := Decremented(old(Room()), uid);
                && WellFormed(d)
                && Room() == AfterNextTurn(d, Room().winnerId)
                && Wrote(Room(), [ToRoom(d.roomId, TurnEndedTyped(d, uid, "timeout"))]
                                 + NextTurnEffects(d, Room().winnerId, fragment))
      ensures WellFormed(Room())
    {
      var s := pool.roomsState[roomId];
      if s.turnIndex == capturedIndex && s.players[s.turnIndex] == uid {
        ChargeTimeout(uid);
        StartNextTurn(fragment);
      } else {
        assert pool.roomsState == old(pool.roomsState)[roomId := s];
      }
    }

    /** The first half of a live timeout: the player loses a life and the
        turn-ended announcement goes out. */
    method ChargeTimeout(uid: UserId)
      requires roomId in pool.roomsState && WellFormed(Room())
      modifies pool
      ensures roomId in pool.roomsState
      ensures var d := Decremented(old(Room()), uid);
        && WellFormed(d) && Room() == d
        && Wrote(d, [ToRoom(d.roomId, TurnEndedTyped(d, uid, "timeout"))])
    {
      var s := pool.roomsState[roomId];
      DecrementedKeeps(s, uid);
      var d := s.(lives := s.lives[uid := GetOr0(s.lives, uid) - 1]);
      pool.roomsState := pool.roomsState[roomId := d];
      pool.outbox := pool.outbox + [ToRoom(d.roomId, NewTurnEndedMessage(d.roomId, uid, "timeout",
                       GetOr0(d.lives, uid), d.round, GetOr0(d.points, uid)))];
    }

    /** The turn-ended announcement of the answer handlers. */
    method AnnounceTurnEnded(uid: UserId, reason: string)
      requires roomId in pool.roomsState
      modifies pool
      ensures roomId in pool.roomsState
      ensures Wrote(old(Room()), [ToRoom(Room().roomId, TurnEndedTyped(Room(), uid, reason))])
    {
      var s := pool.roomsState[roomId];
      pool.outbox := pool.outbox + [ToRoom(s.roomId, NewTurnEndedMessage(s.roomId, uid, reason,
                       GetOr0(s.lives, uid), s.round, GetOr0(s.points, uid)))];
      assert pool.roomsState == old(pool.roomsState)[roomId := s];
    }

    /** `handleSuccessfulAnswer`. */
    method HandleSuccessfulAnswer(uid: UserId, answer: string, newCharSet: string, fragment: string)
      requires roomId in pool.roomsState && WellFormed(Room())
      modifies pool
      ensures roomId in pool.roomsState
      ensures Room() == AfterNextTurn(old(Room()), Room().winnerId)
      ensures old(Room()).started && GameOverCondition(old(Room()).lives) ==>
                ValidWinner(old(Room()).lives, old(Room()).points, Room().winnerId)
      ensures Wrote(Room(), [ToRoom(old(Room()).roomId, TurnEndedTyped(old(Room()), uid, "correct_answer"))]
                            + NextTurnEffects(old(Room()), Room().winnerId, fragment))
      ensures WellFormed(Room())
    {
      AnnounceTurnEnded(uid, "correct_answer");
      StartNextTurn(fragment);
    }

    /** `handleWrongAnswer`: the turn passes on only when the game goes on,
        the answerer has no lives left and holds the turn. */
    method HandleWrongAnswer(uid: UserId, answer: string, fragment: string)
      requires roomId in pool.roomsState && WellFormed(Room())
      modifies pool
      ensures roomId in pool.roomsState
      ensures var s := old(Room());
        var announced := [ToRoom(s.roomId, TurnEndedTyped(s, uid, "wrong_answer"))];
        if GameOverCondition(s.lives) then
          EndedAs(s, Room()) && Wrote(Room(), announced + [ToRoom(s.roomId, GameOverTyped(s, Room().winnerId))])
        else if GetOr0(s.lives, uid) == 0 && s.players[s.turnIndex] == uid then
          Room() == AfterNextTurn(s, Room().winnerId)
          && Wrote(Room(), announced + NextTurnEffects(s, Room().winnerId, fragment))
        else
          Wrote(s, announced)
      ensures WellFormed(Room())
    {
      AnnounceTurnEnded(uid, "wrong_answer");
      var ended := CheckEndCondition();
      if ended {
        return;
      }
      var s := pool.roomsState[roomId];
      if GetOr0(s.lives, uid) == 0 && s.players[s.turnIndex] == uid {
        StartNextTurn(fragment);
      }
    }

    /** `startRoomCountdown` on the state just stored for `roomID`: arm the
        two-minute countdown and announce it. */
    method StartRoomCountdown(roomID: RoomId)
      requires roomID in pool.roomsState
      modifies pool
      ensures pool.roomsState == old(pool.roomsState)[roomID := old(pool.roomsState)[roomID].(countdownTimer := true)]
      ensures pool.outbox == old(pool.outbox) + [CountdownArmed(roomID, GameConfig.DefaultCountdownTime)]
                             + TimerStartedEffects(pool.rooms.Count(roomID), roomID, GameConfig.DefaultCountdownSecs)
      ensures pool.usecaseRooms == old(pool.usecaseRooms)
    {
      var s := pool.roomsState[roomID];
      pool.roomsState := pool.roomsState[roomID := s.(countdownTimer := true)];
      pool.outbox := pool.outbox + [CountdownArmed(roomID, GameConfig.DefaultCountdownTime)];
      BroadcastTimerStarted(roomID, GameConfig.DefaultCountdownSecs);
    }

    /** The countdown of `roomID` fires (`handleCountdownEnd`): a missing or
        running game is left alone; otherwise the game starts in round 1
        with the drawn fragment, the start is announced, and a use case for
        the room plays the first turn. */
    method HandleCountdownEnd(roomID: RoomId, charSet: string, fragment: string)
      requires roomID in pool.roomsState ==> WellFormed(pool.roomsState[roomID])
      modifies pool
      ensures pool.usecaseRooms == old(pool.usecaseRooms)
      ensures !CanStartGame(Lookup(old(pool.roomsState), roomID)) ==>
                pool.roomsState == old(pool.roomsState) && pool.outbox == old(pool.outbox)
      ensures CanStartGame(Lookup(old(pool.roomsState), roomID)) ==>
                var t := StartedGame(old(pool.roomsState)[roomID], charSet);
                && roomID in pool.roomsState
                && WellFormed(t) && WellFormed(pool.roomsState[roomID])
                && pool.roomsState == old(pool.roomsState)[roomID := AfterNextTurn(t, pool.roomsState[roomID].winnerId)]
                && pool.outbox == old(pool.outbox)
                     + [ToRoom(roomID, NewStartGameMessage(roomID, charSet, GameConfig.InitialRound, GameConfig.DefaultGameTimeLimit))]
                     + NextTurnEffects(t, pool.roomsState[roomID].winnerId, fragment)
    {
      var found := Lookup(pool.roomsState, roomID);
      if !CanStartGame(found) {
        return;
      }
      var s := found.value;
      StartedGameKeeps(s, charSet);
      s := s.(started := true, charSet := charSet, round := 1, timeLimit := GameConfig.DefaultGameTimeLimit,
              countdownStarted := false, turnIndex := 0);
      pool.roomsState := pool.roomsState[roomID := s];
      pool.outbox := pool.outbox + [ToRoom(roomID, NewStartGameMessage(roomID, s.charSet, s.round, s.timeLimit))];
      var game := new GameUsecase(pool, roomID);
      game.StartNextTurn(fragment);
    }

    /** `BroadcastTimerStarted`: a timer_started to every client of the
        room, nothing when it has none. */
    method BroadcastTimerStarted(roomID: RoomId, duration: int)
      modifies pool
      ensures pool.outbox == old(pool.outbox) + TimerStartedEffects(pool.rooms.Count(roomID), roomID, duration)
      ensures pool.roomsState == old(pool.roomsState) && pool.usecaseRooms == old(pool.usecaseRooms)
    {
      if pool.rooms.Count(roomID) == 0 {
        return;
      }
      pool.outbox := pool.outbox + [ToRoom(roomID, NewTimerStartedMessage(roomID, duration))];
    }

    /** `BroadcastToRoom`. */
    method BroadcastToRoom(roomID: RoomId, msg: GameMessage)
      modifies pool
      ensures pool.outbox == old(pool.outbox) + [ToRoom(roomID, msg)]
      ensures pool.roomsState == old(pool.roomsState) && pool.usecaseRooms == old(pool.usecaseRooms)
    {
      pool.outbox := pool.outbox + [ToRoom(roomID, msg)];
    }

    /** `addPlayerToRoom` on the state of the client's room: a user who
        already has a Lives entry changes nothing; a new one is appended
        with 3 lives and 0 points, told the time left on a running
        countdown, and announced. */
    method AddPlayerToRoom(client: GameClient, now: int)
      requires client.roomId in pool.roomsState
      modifies pool
      ensures var s := old(pool.roomsState)[client.roomId];
        && pool.roomsState == old(pool.roomsState)[client.roomId := Joined(s, client.userId)]
        && (IsPlayerInRoom(s, client.userId) ==> pool.outbox == old(pool.outbox))
        && (!IsPlayerInRoom(s, client.userId) ==>
              pool.outbox == old(pool.outbox) + JoinEffects(s, pool.rooms.Count(client.roomId),
                                                            client.userId, client.userName, client.roomId, now))
      ensures pool.usecaseRooms == old(pool.usecaseRooms)
    {
      var s := pool.roomsState[client.roomId];
      if !IsPlayerInRoom(s, client.userId) {
        var t := s.(players := s.players + [client.userId],
                    lives := s.lives[client.userId := GameConfig.DefaultPlayerLives],
                    points := s.points[client.userId := GameConfig.DefaultPlayerPoints]);
        pool.roomsState := pool.roomsState[client.roomId := t];
        if t.countdownStarted && !t.started {
          var remainingTime := SecondsUntil(t.countdownEndTime, now);
          if remainingTime > 0 {
            BroadcastTimerStarted(client.roomId, remainingTime);
          }
        }
        BroadcastToRoom(client.roomId, NewUserJoinedMessage(client.userId, client.userName, client.roomId));
      } else {
        assert pool.roomsState == old(pool.roomsState)[client.roomId := s];
      }
    }

    /** `cleanupEmptyRoom`: once the room has no clients, stop its
        countdown timer if one was armed and delete its state; a room with
        clients, and every other room, is left alone. */
    method CleanupEmptyRoom(roomID: RoomId)
      modifies pool
      ensures pool.rooms.Count(roomID) != 0 ==>
                pool.roomsState == old(pool.roomsState) && pool.outbox == old(pool.outbox)
      ensures pool.rooms.Count(roomID) == 0 ==>
                && pool.roomsState == old(pool.roomsState) - {roomID}
                && pool.outbox == old(pool.outbox)
                     + (if roomID in old(pool.roomsState) && old(pool.roomsState)[roomID].countdownTimer
                        then [CountdownStopped(roomID)] else [])
      ensures pool.usecaseRooms == old(pool.usecaseRooms)
    {
      if pool.rooms.Count(roomID) == 0 {
        if roomID in pool.roomsState && pool.roomsState[roomID].countdownTimer {
          pool.outbox := pool.outbox + [CountdownStopped(roomID)];
        }
        pool.roomsState := pool.roomsState - {roomID};
      }
    }

    /** `RoomCount`: the number of registered clients of the room. */
    function RoomCount(roomID: RoomId): (n: nat)
      reads pool, pool.rooms
      ensures n == ClientPoolHelper.RoomCount(pool.rooms.rooms, roomID)
      ensures n == 0 <==> roomID !in pool.rooms.rooms || pool.rooms.rooms[roomID] == map[]
    {
      pool.rooms.Count(roomID)
    }

    /** `isRoomFull`: ten or more clients. */
    function IsRoomFull(roomID: RoomId): (r: bool)
      reads pool, pool.rooms
      ensures r ==> roomID in pool.rooms.rooms && |pool.rooms.rooms[roomID]| >= GameConfig.DefaultMaxPlayers
    {
      RoomCount(roomID) >= GameConfig.DefaultMaxPlayers
    }

    /** `JoinRoom`: a full room takes nothing; otherwise the client is
        handed to the register handler and told the time left on a running
        countdown. */
    method JoinRoom(c: GameClient, roomID: RoomId, now: int)
      modifies pool
      ensures IsRoomFull(roomID) ==> pool.outbox == old(pool.outbox)
      ensures !IsRoomFull(roomID) ==>
                var remaining := RemainingCountdown(pool.roomsState, roomID, now);
                pool.outbox == old(pool.outbox) + [ToRegisterChannel(c.userId, c.roomId)]
                  + (if remaining > 0 then [ToClient(c.userId, NewTimerStartedMessage(roomID, remaining))] else [])
      ensures pool.roomsState == old(pool.roomsState) && pool.usecaseRooms == old(pool.usecaseRooms)
    {
      if IsRoomFull(roomID) {
        return;
      }
      pool.outbox := pool.outbox + [ToRegisterChannel(c.userId, c.roomId)];
      var remainingTime := RemainingCountdown(pool.roomsState, roomID, now);
      if remainingTime > 0 {
        pool.outbox := pool.outbox + [ToClient(c.userId, NewTimerStartedMessage(roomID, remainingTime))];
      }
    }

    /** `BroadcastMessage`, with the payload stamped in its JSON form (see
        BroadcastMessageAsWritten for the code as written). */
    method BroadcastMessage(c: GameClient, msg: GameMessage)
      requires msg.Message?
      modifies pool
      ensures pool.outbox == old(pool.outbox) + [ToBroadcastChannel(Stamped(c.userId, c.roomId, msg))]
      ensures pool.roomsState == old(pool.roomsState) && pool.usecaseRooms == old(pool.usecaseRooms)
    {
      pool.outbox := pool.outbox + [ToBroadcastChannel(Stamped(c.userId, c.roomId, msg))];
    }

    /** `processCorrectAnswer`: a new fragment and one more point for the
        answerer, the response handed to the fan-out loop, then the turn
        passes on. */
    method ProcessCorrectAnswer(c: GameClient, answer: string, newCharSet: string, fragment: string)
      requires c.roomId == roomId && roomId in pool.roomsState && WellFormed(Room())
      modifies pool
      ensures roomId in pool.roomsState && WellFormed(Room())
      ensures var s := Scored(old(Room()), c.userId, newCharSet);
        var response := NewAnswerResponseMessage(true, answer, c.roomId, c.userId, newCharSet,
                                                 GetOr0(s.points, c.userId), GetOr0(s.lives, c.userId));
        && Room() == AfterNextTurn(s, Room().winnerId)
        && Wrote(Room(), [ToBroadcastChannel(Stamped(c.userId, c.roomId, response)),
                          ToRoom(s.roomId, TurnEndedTyped(s, c.userId, "correct_answer"))]
                         + NextTurnEffects(s, Room().winnerId, fragment))
    {
      ScoreAnswer(c, answer, newCharSet);
      HandleSuccessfulAnswer(c.userId, answer, newCharSet, fragment);
    }

    /** The first half of `processCorrectAnswer`: the new fragment and the
        point are stored and the response goes to the fan-out loop. */
    method ScoreAnswer(c: GameClient, answer: string, newCharSet: string)
      requires c.roomId == roomId && roomId in pool.roomsState && WellFormed(Room())
      modifies pool
      ensures roomId in pool.roomsState
      ensures var s := Scored(old(Room()), c.userId, newCharSet);
        && WellFormed(s) && Room() == s
        && Wrote(s, [ToBroadcastChannel(Stamped(c.userId, c.roomId,
                       NewAnswerResponseMessage(true, answer, c.roomId, c.userId, newCharSet,
                                                GetOr0(s.points, c.userId), GetOr0(s.lives, c.userId))))])
    {
      var s := pool.roomsState[roomId];
      ScoredKeeps(s, c.userId, newCharSet);
      s := s.(charSet := newCharSet, points := s.points[c.userId := GetOr0(s.points, c.userId) + 1]);
      pool.roomsState := pool.roomsState[roomId := s];
      var responseMsg := NewAnswerResponseMessage(true, answer, c.roomId, c.userId, s.charSet,
                                                  GetOr0(s.points, c.userId), GetOr0(s.lives, c.userId));
      BroadcastMessage(c, responseMsg);
    }

    /** `processWrongAnswer`: the response handed to the fan-out loop, then
        `handleWrongAnswer`; lives and points are not touched here. */
    method ProcessWrongAnswer(c: GameClient, answer: string, fragment: string)
      requires c.roomId == roomId && roomId in pool.roomsState && WellFormed(Room())
      modifies pool
      ensures roomId in pool.roomsState && WellFormed(Room())
      ensures var s := old(Room());
        var announced := [ToBroadcastChannel(Stamped(c.userId, c.roomId,
                             NewAnswerResponseMessage(false, answer, c.roomId, c.userId, "", 0, GetOr0(s.lives, c.userId)))),
                          ToRoom(s.roomId, TurnEndedTyped(s, c.userId, "wrong_answer"))];
        if GameOverCondition(s.lives) then
          EndedAs(s, Room()) && Wrote(Room(), announced + [ToRoom(s.roomId, GameOverTyped(s, Room().winnerId))])
        else if GetOr0(s.lives, c.userId) == 0 && s.players[s.turnIndex] == c.userId then
          Room() == AfterNextTurn(s, Room().winnerId)
          && Wrote(Room(), announced + NextTurnEffects(s, Room().winnerId, fragment))
        else
          Wrote(s, announced)
    {
      var s := pool.roomsState[roomId];
      var responseMsg := NewAnswerResponseMessage(false, answer, c.roomId, c.userId, "", 0, GetOr0(s.lives, c.userId));
      BroadcastMessage(c, responseMsg);
      HandleWrongAnswer(c.userId, answer, fragment);
    }
  }
}
