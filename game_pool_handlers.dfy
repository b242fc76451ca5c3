/** The handlers of websocket/game_pool.go that go through a room's use
    case (join, answer, typing, unregister) and one step of the read loop's
    dispatch. Each handler is one step on the pool and keeps `Valid`.
    The client's `Pool` is the pool the handler runs on. */
module WebsocketGamePoolHandlers {
  import opened GoValues
  import opened GameRoomStateModel
  import opened GameMessageModel
  import opened Outbox
  import opened TurnRules
  import opened RoomLifecycle
  import opened GameClientModel
  import opened WebsocketGamePool
  import opened WebsocketGameManager
  import ClientPoolHelper
  import GameConfig

  // ----- Join -----

  /** What `handleJoinMessage` needs of its payload: a map holding a
      `float64` under "room_id" (the two assertions panic otherwise) whose
      truncation `uint` holds: above -1 and below 2^64. */
  predicate JoinPayloadOk(msg: GameMessage) {
    && msg.Message? && msg.payload.Dynamic?
    && Field(msg.payload.value, "room_id").Some?
    && Field(msg.payload.value, "room_id").value.Float64?
    && -1.0 < Field(msg.payload.value, "room_id").value.f < UintModulus as real
  }

  /** `uint(roomIDFloat)`: the room the join asks for. */
  function JoinRoomId(msg: GameMessage): (r: RoomId)
    requires JoinPayloadOk(msg)
    ensures 0.0 <= Field(msg.payload.value, "room_id").value.f ==>
              r as real <= Field(msg.payload.value, "room_id").value.f < r as real + 1.0
    ensures Field(msg.payload.value, "room_id").value.f < 0.0 ==> r == 0
  {
    Float64ToUint(Field(msg.payload.value, "room_id").value.f)
  }

  /** A join payload whose room id lies in (-1, 0), such as -0.5, asks for
      room 0. */
  lemma NegativeFractionJoinsRoomZero(msg: GameMessage, f: real)
    requires msg.Message? && msg.payload.Dynamic? && Field(msg.payload.value, "room_id") == Some(Float64(f))
    requires -1.0 < f < 0.0
    ensures JoinPayloadOk(msg) && JoinRoomId(msg) == 0
  {
  }

  /** The state a join leaves for room `r`: a fresh room with its
      countdown armed, or the existing room with the user seated. */
  function JoinedState(states: map<RoomId, GameRoomState>, r: RoomId, userId: UserId, now: int): (t: GameRoomState)
    ensures IsPlayerInRoom(t, userId) && t.roomId == (if r in states then states[r].roomId else r)
    ensures r in states && WellFormed(states[r]) ==> WellFormed(t)
    ensures r !in states ==> WellFormed(t) && t.players == [userId] && t.countdownTimer && !t.started
  {
    if r !in states then CreatedRoom(r, userId, now).(countdownTimer := true)
    else
      JoinedKeeps(states[r], userId);
      Joined(states[r], userId)
  }

  /** What a join emits before the client is registered, with `clients`
      clients registered in the room: a first join arms the countdown and
      announces it to them; a new player of an existing room gets
      `addPlayerToRoom`'s announcements; a returning player nothing. */
  function SeatingEffects(states: map<RoomId, GameRoomState>, clients: nat, r: RoomId,
                          userId: UserId, userName: string, now: int): seq<Effect>
  {
    if r !in states then
      [CountdownArmed(r, GameConfig.DefaultCountdownTime)] + TimerStartedEffects(clients, r, GameConfig.DefaultCountdownSecs)
    else if IsPlayerInRoom(states[r], userId) then []
    else JoinEffects(states[r], clients, userId, userName, r, now)
  }

  /** What `JoinRoom` emits once the client is registered and the room
      has `clients` clients: nothing when that is ten or more; otherwise
      the hand-over to the register handler and the time left on a running
      countdown. */
  function AdmissionEffects(clients: nat, remaining: nat, userId: UserId, r: RoomId): seq<Effect> {
    if clients >= GameConfig.DefaultMaxPlayers then []
    else [ToRegisterChannel(userId, r)]
         + (if remaining > 0 then [ToClient(userId, NewTimerStartedMessage(r, remaining))] else [])
  }

  /** `JoinRoom` counts the joiner, who is registered already: a room that
      held nine clients turns away its tenth, and whoever it turns away is
      still registered and seated (see HandleJoinMessage). */
  lemma AdmissionCountsTheJoiner(before: nat, remaining: nat, userId: UserId, r: RoomId)
    ensures AdmissionEffects(before + 1, remaining, userId, r) == [] <==> before >= GameConfig.DefaultMaxPlayers - 1
    ensures before < GameConfig.DefaultMaxPlayers - 1 ==>
              AdmissionEffects(before + 1, remaining, userId, r)[0] == ToRegisterChannel(userId, r)
  {
  }

  /** A first join, to a room without state or clients, arms the
      countdown, admits the joiner, who is then the room's only client, and
      tells them the full two minutes. */
  lemma FirstJoinEffects(states: map<RoomId, GameRoomState>, r: RoomId, userId: UserId, userName: string, now: int)
    requires r !in states
    ensures var after := states[r := JoinedState(states, r, userId, now)];
      SeatingEffects(states, 0, r, userId, userName, now)
      + AdmissionEffects(1, RemainingCountdown(after, r, now), userId, r)
      == [CountdownArmed(r, GameConfig.DefaultCountdownTime),
          ToRegisterChannel(userId, r),
          ToClient(userId, NewTimerStartedMessage(r, GameConfig.DefaultCountdownSecs))]
  {
    CreatedRoomCountsDownFromStart(r, userId, now);
  }

  /** The state step of `handleJoinMessage`, under the state lock: a room
      without state gets a fresh state, a use case and a running
      countdown; an existing room seats the user. */
  method SeatClient(p: GamePool, c: GameClient, now: int)
    requires p.Valid()
    modifies p
    ensures p.roomsState == old(p.roomsState)[c.roomId := JoinedState(old(p.roomsState), c.roomId, c.userId, now)]
    ensures p.usecaseRooms == old(p.usecaseRooms) + {c.roomId}
    ensures p.outbox == old(p.outbox)
              + SeatingEffects(old(p.roomsState), ClientPoolHelper.RoomCount(p.rooms.rooms, c.roomId), c.roomId, c.userId, c.userName, now)
  {
    var game := new GameUsecase(p, c.roomId);
    if c.roomId !in p.roomsState {
      var gameRoomState := CreatedRoom(c.roomId, c.userId, now);
      p.roomsState := p.roomsState[c.roomId := gameRoomState];
      p.usecaseRooms := p.usecaseRooms + {c.roomId};
      game.StartRoomCountdown(c.roomId);
    } else {
      game.AddPlayerToRoom(c, now);
    }
  }

  /** `handleJoinMessage`: the client moves to the room the payload names
      and is seated there; then the client is registered, `JoinRoom` runs
      and the room hears that the user joined. The first joiner of a room
      is its only client and is told the full two minutes. */
  method HandleJoinMessage(p: GamePool, c: GameClient, msg: GameMessage, now: int) returns (handled: bool)
    requires p.Valid() && JoinPayloadOk(msg)
    modifies p, p.rooms, c
    ensures p.Valid() && handled
    ensures c.roomId == JoinRoomId(msg)
    ensures var r := JoinRoomId(msg);
      && p.roomsState == old(p.roomsState)[r := JoinedState(old(p.roomsState), r, c.userId, now)]
      && p.usecaseRooms == old(p.usecaseRooms) + {r}
      && p.rooms.rooms == ClientPoolHelper.Registered(old(p.rooms.rooms), r, c.userId, c)
      && p.outbox == old(p.outbox)
           + SeatingEffects(old(p.roomsState), ClientPoolHelper.RoomCount(old(p.rooms.rooms), r), r, c.userId, c.userName, now)
           + AdmissionEffects(ClientPoolHelper.RoomCount(p.rooms.rooms, r), RemainingCountdown(p.roomsState, r, now), c.userId, r)
           + [ToRoom(r, NewUserJoinedMessage(c.userId, c.userName, r))]
    ensures var r := JoinRoomId(msg);
      r !in old(p.roomsState) ==>
        && ClientPoolHelper.RoomCount(p.rooms.rooms, r) == 1
        && p.outbox == old(p.outbox)
             + [CountdownArmed(r, GameConfig.DefaultCountdownTime),
                ToRegisterChannel(c.userId, r),
                ToClient(c.userId, NewTimerStartedMessage(r, GameConfig.DefaultCountdownSecs)),
                ToRoom(r, NewUserJoinedMessage(c.userId, c.userName, r))]
  {
    var roomIDFloat := msg.payload.value.fields["room_id"].f;
    var roomID := Float64ToUint(roomIDFloat);
    c.roomId := roomID;
    SeatClient(p, c, now);
    AdmitClient(p, c, now);
    handled := true;
    ValidAfterJoin(p, old(p.roomsState), old(p.usecaseRooms), old(p.rooms.rooms), roomID, c, now);
    if roomID !in old(p.roomsState) {
      FirstJoinOutbox(old(p.outbox), old(p.roomsState), old(p.rooms.rooms), roomID, c, now);
    }
  }

  /** The outbox and the registry after a first join, as HandleJoinMessage
      assembles them. */
  lemma FirstJoinOutbox(out: seq<Effect>, states: map<RoomId, GameRoomState>,
                        clients: map<RoomId, map<UserId, GameClient>>, r: RoomId, c: GameClient, now: int)
    requires r !in states && clients.Keys <= states.Keys
    ensures var after := states[r := JoinedState(states, r, c.userId, now)];
      var registered := ClientPoolHelper.Registered(clients, r, c.userId, c);
      && ClientPoolHelper.RoomCount(registered, r) == 1
      && out + SeatingEffects(states, ClientPoolHelper.RoomCount(clients, r), r, c.userId, c.userName, now)
             + AdmissionEffects(ClientPoolHelper.RoomCount(registered, r), RemainingCountdown(after, r, now), c.userId, r)
             + [ToRoom(r, NewUserJoinedMessage(c.userId, c.userName, r))]
         == out + [CountdownArmed(r, GameConfig.DefaultCountdownTime),
                   ToRegisterChannel(c.userId, r),
                   ToClient(c.userId, NewTimerStartedMessage(r, GameConfig.DefaultCountdownSecs)),
                   ToRoom(r, NewUserJoinedMessage(c.userId, c.userName, r))]
  {
    ClientPoolHelper.RegisteredShape(clients, r, c.userId, c);
    FirstJoinEffects(states, r, c.userId, c.userName, now);
  }

  /** The rest of `handleJoinMessage`, after the state lock: register the
      client, run `JoinRoom`, announce the join. */
  method AdmitClient(p: GamePool, c: GameClient, now: int)
    modifies p, p.rooms
    ensures p.rooms.rooms == ClientPoolHelper.Registered(old(p.rooms.rooms), c.roomId, c.userId, c)
    ensures p.roomsState == old(p.roomsState) && p.usecaseRooms == old(p.usecaseRooms)
    ensures p.outbox == old(p.outbox)
              + AdmissionEffects(ClientPoolHelper.RoomCount(p.rooms.rooms, c.roomId), RemainingCountdown(p.roomsState, c.roomId, now), c.userId, c.roomId)
              + [ToRoom(c.roomId, NewUserJoinedMessage(c.userId, c.userName, c.roomId))]
  {
    p.rooms.RegisterClient(c.roomId, c.userId, c);
    var game := new GameUsecase(p, c.roomId);
    game.JoinRoom(c, c.roomId, now);
    var userJoinedMsg := NewUserJoinedMessage(c.userId, c.userName, c.roomId);
    game.BroadcastToRoom(c.roomId, userJoinedMsg);
  }

  /** The pool a join leaves behind is valid again. */
  lemma ValidAfterJoin(p: GamePool, states: map<RoomId, GameRoomState>, usecases: set<RoomId>,
                       clients: map<RoomId, map<UserId, GameClient>>, r: RoomId, c: GameClient, now: int)
    requires states.Keys <= usecases && clients.Keys <= states.Keys && ClientPoolHelper.NoEmptyRooms(clients)
    requires forall q :: q in states ==> states[q].roomId == q && WellFormed(states[q])
    requires p.roomsState == states[r := JoinedState(states, r, c.userId, now)]
    requires p.usecaseRooms == usecases + {r}
    requires p.rooms.rooms == ClientPoolHelper.Registered(clients, r, c.userId, c)
    ensures p.Valid()
  {
    ClientPoolHelper.RegisteredShape(clients, r, c.userId, c);
  }

  // ----- Answer -----

  /** `handleAnswerMessage`: nothing happens unless the sender's room is
      playing and the payload holds a string "answer"; otherwise the use
      case judges the answer (AnswerStepped). A correct one scores a point
      for the sender and passes the turn; a wrong one changes no lives and
      no points (the iteration never takes a life) and may end the game or
      pass the turn. Either way the first effect is the answer response,
      which reaches the sender's room. */
  method HandleAnswerMessage(p: GamePool, c: GameClient, msg: GameMessage,
                             dictionary: set<string>, newCharSet: string, fragment: string) returns (handled: bool)
    requires p.Valid() && msg.Message? && c.roomId in p.usecaseRooms
    modifies p
    ensures p.Valid()
    ensures handled <==> IsGameActive(Lookup(old(p.roomsState), c.roomId)) && ExtractString(msg, "answer").Some?
    ensures !handled ==> p.roomsState == old(p.roomsState) && p.outbox == old(p.outbox)
    ensures p.usecaseRooms == old(p.usecaseRooms)
    ensures handled ==>
      var s := old(p.roomsState)[c.roomId];
      var answer := ExtractString(msg, "answer").value;
      && c.roomId in p.roomsState
      && p.roomsState == old(p.roomsState)[c.roomId := p.roomsState[c.roomId]]
      && p.roomsState[c.roomId].players == s.players
      && p.roomsState[c.roomId].lives == s.lives
      && (ValidateAnswer(dictionary, s.charSet, answer) ==>
            && p.roomsState[c.roomId] == AfterNextTurn(Scored(s, c.userId, newCharSet), p.roomsState[c.roomId].winnerId)
            && GetOr0(p.roomsState[c.roomId].points, c.userId) == GetOr0(s.points, c.userId) + 1
            && (forall v :: v != c.userId ==> GetOr0(p.roomsState[c.roomId].points, v) == GetOr0(s.points, v)))
      && (!ValidateAnswer(dictionary, s.charSet, answer) ==> p.roomsState[c.roomId].points == s.points)
      && ResponseFirst(old(p.outbox), p.outbox, c.roomId)
    ensures AnswerStepped(old(p.roomsState), old(p.outbox), c, msg, dictionary, newCharSet, fragment, p.roomsState, p.outbox)
  {
    var found := Lookup(p.roomsState, c.roomId);
    if !IsGameActive(found) {
      return false;
    }
    var extracted := ExtractString(msg, "answer");
    if extracted.None? {
      return false;
    }
    var answer := extracted.value;
    if ValidateAnswer(dictionary, found.value.charSet, answer) {
      AcceptAnswer(p, c, answer, newCharSet, fragment);
    } else {
      RejectAnswer(p, c, answer, fragment);
    }
    handled := true;
  }

  /** What the handlers promise of the first new effect: the answer
      response, handed to the fan-out loop, which routes it to `roomId`. */
  predicate ResponseFirst(before: seq<Effect>, after: seq<Effect>, roomId: RoomId) {
    && |after| > |before| && after[..|before|] == before
    && after[|before|].ToBroadcastChannel? && after[|before|].msg.Message?
    && BroadcastRoom(after[|before|].msg) == Some(roomId)
  }

  /** A correct answer from `c` on the room state `s`: the room ends as
      the scored state (new fragment, one more point) with the turn passed
      on, and the effects are the stamped answer response for the fan-out
      loop, the `turn_ended` notice for "correct_answer" and the next
      turn's effects. */
  ghost predicate CorrectAnswerStep(s: GameRoomState, c: GameClient, answer: string, newCharSet: string,
                                    fragment: string, t: GameRoomState, added: seq<Effect>)
    reads c
  {
    WellFormed(s) &&
    var scored := Scored(s, c.userId, newCharSet);
    var response := NewAnswerResponseMessage(true, answer, c.roomId, c.userId, newCharSet,
                                             GetOr0(scored.points, c.userId), GetOr0(scored.lives, c.userId));
    && t == AfterNextTurn(scored, t.winnerId)
    && added == [ToBroadcastChannel(Stamped(c.userId, c.roomId, response)),
                 ToRoom(scored.roomId, TurnEndedTyped(scored, c.userId, "correct_answer"))]
                + NextTurnEffects(scored, t.winnerId, fragment)
  }

  /** A wrong answer from `c` on the room state `s`, which costs no life
      here: the effects start with the stamped response and the
      `turn_ended` notice for "wrong_answer"; then the game ends if at most
      one player is alive, the turn passes on if the answerer has no lives
      and holds it, and otherwise the room stays as it is. */
  ghost predicate WrongAnswerStep(s: GameRoomState, c: GameClient, answer: string, fragment: string,
                                  t: GameRoomState, added: seq<Effect>)
    reads c
  {
    WellFormed(s) &&
    var response := NewAnswerResponseMessage(false, answer, c.roomId, c.userId, "", 0, GetOr0(s.lives, c.userId));
    var announced := [ToBroadcastChannel(Stamped(c.userId, c.roomId, response)),
                      ToRoom(s.roomId, TurnEndedTyped(s, c.userId, "wrong_answer"))];
    if GameOverCondition(s.lives) then
      EndedAs(s, t) && added == announced + [ToRoom(s.roomId, GameOverTyped(s, t.winnerId))]
    else if GetOr0(s.lives, c.userId) == 0 && s.players[s.turnIndex] == c.userId then
      t == AfterNextTurn(s, t.winnerId) && added == announced + NextTurnEffects(s, t.winnerId, fragment)
    else
      t == s && added == announced
  }

  /** The pool step around a room step: only the sender's room changed and
      the outbox only grew. */
  ghost predicate SenderRoomStep(states: map<RoomId, GameRoomState>, out: seq<Effect>, c: GameClient,
                                 states': map<RoomId, GameRoomState>, out': seq<Effect>)
    reads c
  {
    && c.roomId in states && c.roomId in states'
    && states' == states[c.roomId := states'[c.roomId]]
    && |out| <= |out'| && out'[..|out|] == out
  }

  /** After a correct answer from `c`, on the pool's states and outbox. */
  ghost predicate CorrectAnswerOutcome(states: map<RoomId, GameRoomState>, out: seq<Effect>, c: GameClient,
                                       answer: string, newCharSet: string, fragment: string,
                                       states': map<RoomId, GameRoomState>, out': seq<Effect>)
    reads c
  {
    && SenderRoomStep(states, out, c, states', out')
    && CorrectAnswerStep(states[c.roomId], c, answer, newCharSet, fragment, states'[c.roomId], out'[|out|..])
  }

  /** After a wrong answer from `c`, on the pool's states and outbox. */
  ghost predicate WrongAnswerOutcome(states: map<RoomId, GameRoomState>, out: seq<Effect>, c: GameClient,
                                     answer: string, fragment: string,
                                     states': map<RoomId, GameRoomState>, out': seq<Effect>)
    reads c
  {
    && SenderRoomStep(states, out, c, states', out')
    && WrongAnswerStep(states[c.roomId], c, answer, fragment, states'[c.roomId], out'[|out|..])
  }

  /** A correct answer scores exactly one point for the answerer, changes
      no one else's points, no lives and no player, and its first effect is
      the response, routed to the sender's room. */
  lemma CorrectAnswerScores(states: map<RoomId, GameRoomState>, out: seq<Effect>, c: GameClient,
                            answer: string, newCharSet: string, fragment: string,
                            states': map<RoomId, GameRoomState>, out': seq<Effect>)
    requires CorrectAnswerOutcome(states, out, c, answer, newCharSet, fragment, states', out')
    ensures var s, t := states[c.roomId], states'[c.roomId];
      && t.players == s.players && t.lives == s.lives
      && GetOr0(t.points, c.userId) == GetOr0(s.points, c.userId) + 1
      && (forall v :: v != c.userId ==> GetOr0(t.points, v) == GetOr0(s.points, v))
    ensures ResponseFirst(out, out', c.roomId)
  {
    var s := states[c.roomId];
    var scored := Scored(s, c.userId, newCharSet);
    ScoredKeeps(s, c.userId, newCharSet);
    AfterNextTurnKeepsScores(scored, states'[c.roomId].winnerId);
    StampedAnswerIsDelivered(true, answer, c.roomId, c.userId, newCharSet,
                             GetOr0(scored.points, c.userId), GetOr0(scored.lives, c.userId), c.userId, c.roomId);
  }

  /** A wrong answer changes no lives, no points and no player, whichever
      of the three outcomes follows, and its first effect is the response,
      routed to the sender's room. */
  lemma WrongAnswerKeepsScores(states: map<RoomId, GameRoomState>, out: seq<Effect>, c: GameClient,
                               answer: string, fragment: string,
                               states': map<RoomId, GameRoomState>, out': seq<Effect>)
    requires WrongAnswerOutcome(states, out, c, answer, fragment, states', out')
    ensures var s, t := states[c.roomId], states'[c.roomId];
      t.players == s.players && t.lives == s.lives && t.points == s.points
    ensures ResponseFirst(out, out', c.roomId)
  {
    var s := states[c.roomId];
    StampedAnswerIsDelivered(false, answer, c.roomId, c.userId, "", 0, GetOr0(s.lives, c.userId), c.userId, c.roomId);
    if !GameOverCondition(s.lives) && GetOr0(s.lives, c.userId) == 0 && s.players[s.turnIndex] == c.userId {
      AfterNextTurnKeepsScores(s, states'[c.roomId].winnerId);
    }
  }

  /** What `handleAnswerMessage` does with `msg` from `c`: nothing unless
      the sender's room is playing and the payload holds a string
      "answer"; otherwise the correct or the wrong outcome, as the answer
      passes `validateAnswer` against the room's fragment. */
  ghost predicate AnswerStepped(states: map<RoomId, GameRoomState>, out: seq<Effect>, c: GameClient, msg: GameMessage,
                                dictionary: set<string>, newCharSet: string, fragment: string,
                                states': map<RoomId, GameRoomState>, out': seq<Effect>)
    requires msg.Message?
    reads c
  {
    if IsGameActive(Lookup(states, c.roomId)) && ExtractString(msg, "answer").Some? then
      var answer := ExtractString(msg, "answer").value;
      if ValidateAnswer(dictionary, states[c.roomId].charSet, answer)
      then CorrectAnswerOutcome(states, out, c, answer, newCharSet, fragment, states', out')
      else WrongAnswerOutcome(states, out, c, answer, fragment, states', out')
    else states' == states && out' == out
  }

  /** The correct-answer branch of `handleAnswerMessage`. */
  method AcceptAnswer(p: GamePool, c: GameClient, answer: string, newCharSet: string, fragment: string)
    requires p.Valid() && c.roomId in p.usecaseRooms && c.roomId in p.roomsState
    modifies p
    ensures p.Valid() && p.usecaseRooms == old(p.usecaseRooms) && c.roomId in p.roomsState
    ensures var s, t := old(p.roomsState)[c.roomId], p.roomsState[c.roomId];
      && p.roomsState == old(p.roomsState)[c.roomId := t]
      && t == AfterNextTurn(Scored(s, c.userId, newCharSet), t.winnerId)
      && t.players == s.players && t.lives == s.lives
      && GetOr0(t.points, c.userId) == GetOr0(s.points, c.userId) + 1
      && (forall v :: v != c.userId ==> GetOr0(t.points, v) == GetOr0(s.points, v))
    ensures ResponseFirst(old(p.outbox), p.outbox, c.roomId)
    ensures CorrectAnswerOutcome(old(p.roomsState), old(p.outbox), c, answer, newCharSet, fragment, p.roomsState, p.outbox)
  {
    var game := new GameUsecase(p, c.roomId);
    game.ProcessCorrectAnswer(c, answer, newCharSet, fragment);
    CorrectAnswerScores(old(p.roomsState), old(p.outbox), c, answer, newCharSet, fragment, p.roomsState, p.outbox);
  }

  /** The wrong-answer branch of `handleAnswerMessage`: no lives and no
      points change, and `handleWrongAnswer` ends the game, passes the
      turn or leaves the room as it is. */
  method RejectAnswer(p: GamePool, c: GameClient, answer: string, fragment: string)
    requires p.Valid() && c.roomId in p.usecaseRooms && c.roomId in p.roomsState
    modifies p
    ensures p.Valid() && p.usecaseRooms == old(p.usecaseRooms) && c.roomId in p.roomsState
    ensures var s, t := old(p.roomsState)[c.roomId], p.roomsState[c.roomId];
      && p.roomsState == old(p.roomsState)[c.roomId := t]
      && t.players == s.players && t.lives == s.lives && t.points == s.points
    ensures ResponseFirst(old(p.outbox), p.outbox, c.roomId)
    ensures WrongAnswerOutcome(old(p.roomsState), old(p.outbox), c, answer, fragment, p.roomsState, p.outbox)
  {
    var game := new GameUsecase(p, c.roomId);
    game.ProcessWrongAnswer(c, answer, fragment);
    WrongAnswerKeepsScores(old(p.roomsState), old(p.outbox), c, answer, fragment, p.roomsState, p.outbox);
  }

  // ----- Typing -----

  /** The typing notice in the form the fan-out loop routes: the JSON
      object of `NewTypingMessage`'s payload as a map. Clients receive the
      same JSON either way. */
  function TypingRelay(text: string, roomId: RoomId, userId: UserId): (m: GameMessage)
    ensures m.Message? && m.msgType == Typing
    ensures BroadcastRoom(m) == Some(roomId)
    ensures Wire(m.payload) == Wire(NewTypingMessage(text, roomId, userId).payload)
    ensures Field(Wire(m.payload), "text") == Some(Str(text)) && Field(Wire(m.payload), "user_id") == Some(Uint(userId))
  {
    Message(Typing, Dynamic(Wire(TypingPayload(text, roomId, userId))))
  }

  /** As written, `handleTypingMessage` sends the typed `NewTypingMessage`
      to the fan-out loop, which panics on it: no typing notice is ever
      delivered. */
  lemma TypingBroadcastPanics(text: string, roomId: RoomId, userId: UserId)
    ensures NewTypingMessage(text, roomId, userId).msgType == Typing
    ensures BroadcastRoom(NewTypingMessage(text, roomId, userId)).None?
  {
    TypedPayloadPanics(NewTypingMessage(text, roomId, userId));
  }

  /** `handleTypingMessage`, with the notice sent in the routable form:
      nothing happens for a room without state or a payload without a
      string "text"; otherwise the notice goes to the fan-out loop. */
  method HandleTypingMessage(p: GamePool, c: GameClient, msg: GameMessage) returns (handled: bool)
    requires msg.Message?
    modifies p
    ensures handled <==> c.roomId in old(p.roomsState) && ExtractString(msg, "text").Some?
    ensures handled ==> p.outbox == old(p.outbox) + [ToBroadcastChannel(TypingRelay(ExtractString(msg, "text").value, c.roomId, c.userId))]
    ensures !handled ==> p.outbox == old(p.outbox)
    ensures p.roomsState == old(p.roomsState) && p.usecaseRooms == old(p.usecaseRooms)
  {
    if c.roomId !in p.roomsState {
      return false;
    }
    var extracted := ExtractString(msg, "text");
    if extracted.None? {
      return false;
    }
    var typingMsg := TypingRelay(extracted.value, c.roomId, c.userId);
    p.outbox := p.outbox + [ToBroadcastChannel(typingMsg)];
    handled := true;
  }

  // ----- Unregister -----

  /** `handleUnregister`: the room hears that the user left, the client is
      removed from the registry, and a room left with no clients loses its
      state (and its armed countdown). */
  method HandleUnregister(p: GamePool, client: GameClient)
    requires p.Valid() && client.roomId in p.usecaseRooms
    modifies p, p.rooms
    ensures p.Valid()
    ensures var r := client.roomId;
      && p.rooms.rooms == ClientPoolHelper.Unregistered(old(p.rooms.rooms), r, client.userId)
      && p.usecaseRooms == old(p.usecaseRooms)
      && (r in p.rooms.rooms ==> p.roomsState == old(p.roomsState))
      && (r !in p.rooms.rooms ==> p.roomsState == old(p.roomsState) - {r})
      && p.outbox == old(p.outbox) + [ToRoom(r, NewUserLeftMessage(client.userId, client.userName, r))]
           + (if r !in p.rooms.rooms && r in old(p.roomsState) && old(p.roomsState)[r].countdownTimer
              then [CountdownStopped(r)] else [])
  {
    var game := new GameUsecase(p, client.roomId);
    var userLeftMsg := NewUserLeftMessage(client.userId, client.userName, client.roomId);
    game.BroadcastToRoom(client.roomId, userLeftMsg);
    ClientPoolHelper.UnregisteredShape(p.rooms.rooms, client.roomId, client.userId);
    p.rooms.UnregisterClient(client.roomId, client.userId);
    game.CleanupEmptyRoom(client.roomId);
  }

  // ----- The read loop -----

  /** One message of `Read`'s loop, dispatched on its type: a join moves
      and seats the client, an answer has its handler's outcome, a leave
      goes to the unregister channel, typing is relayed, a ping is answered
      and a pong recorded. An unknown type changes nothing; the deferred
      leave at the end of the loop is `LeaveRoom`. */
  method ReadStep(p: GamePool, c: GameClient, msg: GameMessage, now: int,
                  dictionary: set<string>, newCharSet: string, fragment: string)
    requires p.Valid() && msg.Message?
    requires msg.msgType == Join ==> JoinPayloadOk(msg)
    requires msg.msgType == Answer ==> c.roomId in p.usecaseRooms
    modifies p, p.rooms, c
    ensures p.Valid()
    ensures msg.msgType != Join ==> c.roomId == old(c.roomId) && p.rooms.rooms == old(p.rooms.rooms)
    ensures msg.msgType == Join ==> c.roomId == JoinRoomId(msg) && c.roomId in p.rooms.rooms && c.userId in p.rooms.rooms[c.roomId]
    ensures msg.msgType == Answer ==>
              AnswerStepped(old(p.roomsState), old(p.outbox), c, msg, dictionary, newCharSet, fragment, p.roomsState, p.outbox)
    ensures msg.msgType == Leave ==> p.outbox == old(p.outbox) + [ToUnregisterChannel(c.userId, c.roomId)]
    ensures msg.msgType in {Leave, Typing, Ping, Pong} ==> p.roomsState == old(p.roomsState)
    ensures msg.msgType == Typing ==>
              var relayed := c.roomId in old(p.roomsState) && ExtractString(msg, "text").Some?;
              && (relayed ==> p.outbox == old(p.outbox) + [ToBroadcastChannel(TypingRelay(ExtractString(msg, "text").value, c.roomId, c.userId))])
              && (!relayed ==> p.outbox == old(p.outbox))
    ensures msg.msgType == Ping ==>
              && (TimestampOf(msg).Some? ==> p.outbox == old(p.outbox) + [ToClient(c.userId, PongFor(TimestampOf(msg).value))])
              && (TimestampOf(msg).None? ==> p.outbox == old(p.outbox))
    ensures msg.msgType == Pong ==>
              && (TimestampOf(msg).Some? ==> p.outbox == old(p.outbox) + [PongHandled(c.userId, TimestampOf(msg).value)])
              && (TimestampOf(msg).None? ==> p.outbox == old(p.outbox))
    ensures msg.msgType !in {Join, Answer, Leave, Typing, Ping, Pong} ==>
              p.roomsState == old(p.roomsState) && p.outbox == old(p.outbox) && p.usecaseRooms == old(p.usecaseRooms)
  {
    match msg.msgType {
      case Join =>
        ClientPoolHelper.RegisteredShape(p.rooms.rooms, JoinRoomId(msg), c.userId, c);
        var _ := HandleJoinMessage(p, c, msg, now);
      case Answer =>
        var _ := HandleAnswerMessage(p, c, msg, dictionary, newCharSet, fragment);
      case Leave =>
        p.LeaveRoom(c);
      case Typing =>
        var _ := HandleTypingMessage(p, c, msg);
      case Ping =>
        p.HandlePingMessage(c, msg);
      case Pong =>
        p.HandlePongMessage(c, msg);
      case _ =>
    }
  }
}
