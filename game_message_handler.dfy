/** The message handler of websocket/game_message_handler.go: join,
    answer and typing messages of the iteration built from the turn engine
    of websocket/game_engine.go, the state store of
    websocket/game_state_manager.go and the fluent builder. Its pool's
    `JoinRoom` and `BroadcastMessage` are not part of this model; calls to
    them are the `JoinRequested` and `BroadcastRequested` effects. This
    iteration indexes the payload as a map, which is the payload's JSON
    object here. */
module WebsocketGameMessageHandler {
  import opened GoValues
  import opened GameRoomStateModel
  import opened GameMessageModel
  import opened Outbox
  import opened TurnRules
  import opened RoomLifecycle
  import opened GameClientModel
  import opened GameMessageBuilder
  import opened WebsocketGameEngine
  import opened WebsocketGameStateManager
  import WebsocketGameManager

  /** `msg.Payload[key]`: absent keys read as nothing. */
  function PayloadField(msg: GameMessage, key: string): Option<Value>
    requires msg.Message?
  {
    Field(Wire(msg.payload), key)
  }

  /** `msg.Payload[key].(string)` with the comma-ok form. */
  function PayloadString(msg: GameMessage, key: string): (r: Option<string>)
    requires msg.Message?
    ensures r.Some? <==> PayloadField(msg, key).Some? && PayloadField(msg, key).value.Str?
    ensures r.Some? ==> PayloadField(msg, key) == Some(Str(r.value))
  {
    match PayloadField(msg, key)
    case Some(Str(s)) => Some(s)
    case _ => None
  }

  /** `ExtractRoomID`'s result: the id or one of its two errors. */
  datatype RoomIdResult = RoomIdOk(id: RoomId) | RoomIdMissing | RoomIdInvalidType

  /** `ExtractRoomID` converts a `float64` with `uint`, which needs its
      truncation in range: above -1 and below 2^64. */
  predicate RoomIdConvertible(msg: GameMessage)
    requires msg.Message?
  {
    PayloadField(msg, "room_id").Some? && PayloadField(msg, "room_id").value.Float64? ==>
      -1.0 < PayloadField(msg, "room_id").value.f < UintModulus as real
  }

  /** `ExtractRoomID`: missing when the payload has no "room_id"; the
      `float64`, `uint` and `int` kinds convert to `uint`; any other kind
      is an invalid type. */
  function ExtractRoomID(msg: GameMessage): (r: RoomIdResult)
    requires msg.Message? && RoomIdConvertible(msg)
    ensures r.RoomIdMissing? <==> PayloadField(msg, "room_id").None?
    ensures r.RoomIdInvalidType? <==>
              PayloadField(msg, "room_id").Some?
              && !(PayloadField(msg, "room_id").value.Float64? || PayloadField(msg, "room_id").value.Uint?
                   || PayloadField(msg, "room_id").value.Int?)
    ensures r.RoomIdOk? && PayloadField(msg, "room_id").value.Float64? ==>
              r.id == Float64ToUint(PayloadField(msg, "room_id").value.f)
    ensures r.RoomIdOk? && PayloadField(msg, "room_id").value.Uint? ==> r.id == PayloadField(msg, "room_id").value.u
    ensures r.RoomIdOk? && PayloadField(msg, "room_id").value.Int? ==> r.id == IntToUint(PayloadField(msg, "room_id").value.i)
  {
    match PayloadField(msg, "room_id")
    case None => RoomIdMissing
    case Some(v) =>
      match v
      case Float64(f) => RoomIdOk(Float64ToUint(f))
      case Uint(u) => RoomIdOk(u)
      case Int(i) => RoomIdOk(IntToUint(i))
      case _ => RoomIdInvalidType
  }

  /** A room id in (-1, 0), such as -0.5, is room 0. */
  lemma NegativeFractionIsRoomZero(msg: GameMessage, f: real)
    requires msg.Message? && PayloadField(msg, "room_id") == Some(Float64(f)) && -1.0 < f < 0.0
    ensures RoomIdConvertible(msg) && ExtractRoomID(msg) == RoomIdOk(0)
  {
  }

  /** On a map payload, `ExtractRoomID` accepts exactly what
      `extractUintFromPayload` of websocket/game_manager.go accepts, with
      the same value. */
  lemma ExtractRoomIDAgreesWithManager(msg: GameMessage)
    requires msg.Message? && msg.payload.Dynamic? && RoomIdConvertible(msg)
    ensures WebsocketGameManager.ExtractUint(msg, "room_id").Some? <==> ExtractRoomID(msg).RoomIdOk?
    ensures ExtractRoomID(msg).RoomIdOk? ==> WebsocketGameManager.ExtractUint(msg, "room_id") == Some(ExtractRoomID(msg).id)
  {
  }

  /** The answer response `handleCorrectAnswer` and `handleWrongAnswer`
      build. */
  function AnswerBuilt(roomId: RoomId, userId: UserId, correct: bool, answer: string,
                       charSet: string, score: int, lives: int): GameMessage {
    Message(Answer, Dynamic(Object(map["room_id" := Uint(roomId), "user_id" := Uint(userId),
      "correct" := Bool(correct), "answer" := Str(answer), "char_set" := Str(charSet),
      "score" := Int(score), "lives" := Int(lives)])))
  }

  /** The typing notice `HandleTyping` builds. */
  function TypingBuilt(roomId: RoomId, userId: UserId, text: string): GameMessage {
    Message(Typing, Dynamic(Object(map["room_id" := Uint(roomId), "user_id" := Uint(userId), "text" := Str(text)])))
  }

  /** The answer response reports the sender, the verdict and the answer
      as given. */
  lemma AnswerBuiltReports(roomId: RoomId, userId: UserId, correct: bool, answer: string,
                           charSet: string, score: int, lives: int)
    ensures var m := AnswerBuilt(roomId, userId, correct, answer, charSet, score, lives);
      && m.msgType == "answer"
      && Wire(m.payload).fields.Keys == {"room_id", "user_id", "correct", "answer", "char_set", "score", "lives"}
      && Field(Wire(m.payload), "correct") == Some(Bool(correct))
      && Field(Wire(m.payload), "user_id") == Some(Uint(userId))
      && Field(Wire(m.payload), "score") == Some(Int(score))
  {
  }

  /** The builder chain of the answer responses. */
  method BuildAnswer(roomId: RoomId, userId: UserId, correct: bool, answer: string,
                     charSet: string, score: int, lives: int) returns (message: GameMessage)
    ensures message == AnswerBuilt(roomId, userId, correct, answer, charSet, score, lives)
  {
    var b := new MessageBuilder.NewGameMessage();
    b := b.SetMessageType(Answer);
    b := b.WithRoomId(roomId);
    b := b.WithUserId(userId);
    b := b.WithCorrect(correct);
    b := b.WithAnswer(answer);
    b := b.WithCharSet(charSet);
    b := b.WithScore(score);
    b := b.WithLives(lives);
    message := b.Build();
  }

  /** The builder chain of the typing notice. */
  method BuildTyping(roomId: RoomId, userId: UserId, text: string) returns (message: GameMessage)
    ensures message == TypingBuilt(roomId, userId, text)
  {
    var b := new MessageBuilder.NewGameMessage();
    b := b.SetMessageType(Typing);
    b := b.WithRoomId(roomId);
    b := b.WithUserId(userId);
    b := b.WithText(text);
    message := b.Build();
  }

  /** After a correct answer from `c`: the room holds the scored state
      (new fragment, one more point) with the turn passed on, and the
      outbox gained the answer response for the pool, the turn-ended
      notice and the next turn's effects. */
  ghost predicate CorrectAnswerOutcome(states: map<RoomId, GameRoomState>, out: seq<Effect>, c: GameClient,
                                       answer: string, newCharSet: string, fragment: string,
                                       states': map<RoomId, GameRoomState>, out': seq<Effect>)
    reads c
  {
    c.roomId in states && c.roomId in states' && WellFormed(states[c.roomId]) &&
    var t := Scored(states[c.roomId], c.userId, newCharSet);
    var winner := states'[c.roomId].winnerId;
    && states' == states[c.roomId := AfterNextTurn(t, winner)]
    && out' == out + [BroadcastRequested(c.userId, c.roomId,
                        AnswerBuilt(c.roomId, c.userId, true, answer, newCharSet,
                                    GetOr0(t.points, c.userId), GetOr0(t.lives, c.userId)))]
                   + [ToRoom(t.roomId, TurnEndedBuilt(t, c.userId, "correct_answer"))]
                   + NextTurnEffects(t, winner, fragment)
  }

  /** After a wrong answer from `c`: the outbox gained the answer response
      with the current fragment, score and lives and the turn-ended notice;
      then the game ends if at most one player is alive, the turn passes on
      if the answerer has no lives and holds it, and otherwise the room is
      unchanged. */
  ghost predicate WrongAnswerOutcome(states: map<RoomId, GameRoomState>, out: seq<Effect>, c: GameClient,
                                     answer: string, fragment: string,
                                     states': map<RoomId, GameRoomState>, out': seq<Effect>)
    reads c
  {
    c.roomId in states && c.roomId in states' && WellFormed(states[c.roomId]) &&
    var s := states[c.roomId];
    var t := states'[c.roomId];
    var announced := out + [BroadcastRequested(c.userId, c.roomId,
                              AnswerBuilt(c.roomId, c.userId, false, answer, s.charSet,
                                          GetOr0(s.points, c.userId), GetOr0(s.lives, c.userId)))]
                         + [ToRoom(s.roomId, TurnEndedBuilt(s, c.userId, "wrong_answer"))];
    && states' == states[c.roomId := t]
    && (if GameOverCondition(s.lives) then
          EndedAs(s, t) && out' == announced + [ToRoom(s.roomId, GameOverBuilt(s, t.winnerId))]
        else if GetOr0(s.lives, c.userId) == 0 && s.players[s.turnIndex] == c.userId then
          t == AfterNextTurn(s, t.winnerId) && out' == announced + NextTurnEffects(s, t.winnerId, fragment)
        else
          t == s && out' == announced)
  }

  /** A correct answer scores exactly one point for the answerer, changes
      no one else's points, no lives and no player, and the answer
      response goes out first. */
  lemma CorrectAnswerScores(states: map<RoomId, GameRoomState>, out: seq<Effect>, c: GameClient,
                            answer: string, newCharSet: string, fragment: string,
                            states': map<RoomId, GameRoomState>, out': seq<Effect>)
    requires CorrectAnswerOutcome(states, out, c, answer, newCharSet, fragment, states', out')
    ensures var s, t := states[c.roomId], states'[c.roomId];
      && t.players == s.players && t.lives == s.lives
      && GetOr0(t.points, c.userId) == GetOr0(s.points, c.userId) + 1
      && (forall v :: v != c.userId ==> GetOr0(t.points, v) == GetOr0(s.points, v))
    ensures out'[..|out|] == out && out'[|out|].BroadcastRequested? && out'[|out|].msg.msgType == "answer"
  {
    var s := states[c.roomId];
    ScoredKeeps(s, c.userId, newCharSet);
    AfterNextTurnKeepsScores(Scored(s, c.userId, newCharSet), states'[c.roomId].winnerId);
  }

  /** A wrong answer in this iteration costs no life: it changes no lives,
      no points and no player, whichever of the three outcomes follows,
      and the answer response goes out first. */
  lemma WrongAnswerKeepsScores(states: map<RoomId, GameRoomState>, out: seq<Effect>, c: GameClient,
                               answer: string, fragment: string,
                               states': map<RoomId, GameRoomState>, out': seq<Effect>)
    requires WrongAnswerOutcome(states, out, c, answer, fragment, states', out')
    ensures var s, t := states[c.roomId], states'[c.roomId];
      && t.players == s.players && t.points == s.points && t.lives == s.lives
    ensures out'[..|out|] == out && out'[|out|].BroadcastRequested? && out'[|out|].msg.msgType == "answer"
  {
    var s := states[c.roomId];
    if !GameOverCondition(s.lives) && GetOr0(s.lives, c.userId) == 0 && s.players[s.turnIndex] == c.userId {
      AfterNextTurnKeepsScores(s, states'[c.roomId].winnerId);
    }
  }

  /** The turn engine over `state` after a correct answer from `uid`:
      the point and the new fragment of `handleCorrectAnswer`, then
      `HandleSuccessfulAnswer`; returns the state to write back and what
      the engine emitted. */
  method PlayCorrectAnswer(state: GameRoomState, uid: UserId, answer: string, newCharSet: string, fragment: string)
    returns (room: GameRoomState, effects: seq<Effect>)
    requires WellFormed(state)
    ensures var t := Scored(state, uid, newCharSet);
      && room == AfterNextTurn(t, room.winnerId) && WellFormed(room) && room.roomId == state.roomId
      && effects == [ToRoom(t.roomId, TurnEndedBuilt(t, uid, "correct_answer"))] + NextTurnEffects(t, room.winnerId, fragment)
  {
    ScoredKeeps(state, uid, newCharSet);
    var game := new GameEngine(Scored(state, uid, newCharSet));
    game.HandleSuccessfulAnswer(uid, answer, newCharSet, fragment);
    room, effects := game.room, game.outbox;
  }

  /** The turn engine over `state` after a wrong answer from `uid`:
      `HandleWrongAnswer`, returning the state to write back and what the
      engine emitted. */
  method PlayWrongAnswer(state: GameRoomState, uid: UserId, answer: string, fragment: string)
    returns (room: GameRoomState, effects: seq<Effect>)
    requires WellFormed(state)
    ensures WellFormed(room) && room.roomId == state.roomId
    ensures var announced := [ToRoom(state.roomId, TurnEndedBuilt(state, uid, "wrong_answer"))];
      if GameOverCondition(state.lives) then
        EndedAs(state, room) && effects == announced + [ToRoom(state.roomId, GameOverBuilt(state, room.winnerId))]
      else if GetOr0(state.lives, uid) == 0 && state.players[state.turnIndex] == uid then
        room == AfterNextTurn(state, room.winnerId) && effects == announced + NextTurnEffects(state, room.winnerId, fragment)
      else
        room == state && effects == announced
  {
    var game := new GameEngine(state);
    game.HandleWrongAnswer(uid, answer, fragment);
    room, effects := game.room, game.outbox;
  }

  class GameMessageHandler {
    const states: GameStateManager
    var outbox: seq<Effect>

    /** `NewGameMessageHandler` over its pool's state store. */
    constructor(states: GameStateManager)
      ensures this.states == states && outbox == []
    {
      this.states := states;
      outbox := [];
    }

    /** `HandleJoin`: an extractable room id is handed to the pool's
        `JoinRoom`; otherwise nothing happens and the result is false. */
    method HandleJoin(c: GameClient, msg: GameMessage) returns (ok: bool)
      requires msg.Message? && RoomIdConvertible(msg)
      modifies this
      ensures ok <==> ExtractRoomID(msg).RoomIdOk?
      ensures ok ==> outbox == old(outbox) + [JoinRequested(c.userId, ExtractRoomID(msg).id)]
      ensures !ok ==> outbox == old(outbox)
    {
      var roomID := ExtractRoomID(msg);
      if !roomID.RoomIdOk? {
        return false;
      }
      outbox := outbox + [JoinRequested(c.userId, roomID.id)];
      ok := true;
    }

    /** `HandleTyping`: a string "text" is sent to the room as a typing
        notice; anything else is refused. */
    method HandleTyping(c: GameClient, msg: GameMessage) returns (ok: bool)
      requires msg.Message?
      modifies this
      ensures ok <==> PayloadString(msg, "text").Some?
      ensures ok ==> outbox == old(outbox) + [BroadcastRequested(c.userId, c.roomId,
                                                TypingBuilt(c.roomId, c.userId, PayloadString(msg, "text").value))]
      ensures !ok ==> outbox == old(outbox)
    {
      var text := PayloadString(msg, "text");
      if text.None? {
        return false;
      }
      var message := BuildTyping(c.roomId, c.userId, text.value);
      outbox := outbox + [BroadcastRequested(c.userId, c.roomId, message)];
      ok := true;
    }

    /** `HandleAnswer`: refused, with no change, when the sender's room has
        no state, has not started, or the answer is not a string. An answer
        containing the fragment that is a dictionary word scores a point
        for the sender under a new fragment and passes the turn; any other
        answer changes neither lives nor points. Either way the response is
        sent first. */
    method HandleAnswer(c: GameClient, msg: GameMessage, dictionary: set<string>,
                        newCharSet: string, fragment: string) returns (ok: bool)
      requires msg.Message? && states.Valid()
      modifies this, states
      ensures states.Valid()
      ensures ok <==> IsGameActive(old(states.GetRoomState(c.roomId))) && PayloadString(msg, "answer").Some?
      ensures !ok ==> states.roomState == old(states.roomState) && outbox == old(outbox)
      ensures ok && WebsocketGameManager.ValidateAnswer(dictionary, old(states.roomState)[c.roomId].charSet, PayloadString(msg, "answer").value) ==>
                CorrectAnswerOutcome(old(states.roomState), old(outbox), c, PayloadString(msg, "answer").value, newCharSet, fragment,
                                     states.roomState, outbox)
      ensures ok && !WebsocketGameManager.ValidateAnswer(dictionary, old(states.roomState)[c.roomId].charSet, PayloadString(msg, "answer").value) ==>
                WrongAnswerOutcome(old(states.roomState), old(outbox), c, PayloadString(msg, "answer").value, fragment,
                                   states.roomState, outbox)
    {
      var found := states.GetRoomState(c.roomId);
      if found.None? || !found.value.started {
        return false;
      }
      var answer := PayloadString(msg, "answer");
      if answer.None? {
        return false;
      }
      if WebsocketGameManager.ValidateAnswer(dictionary, found.value.charSet, answer.value) {
        HandleCorrectAnswer(c, answer.value, newCharSet, fragment);
      } else {
        HandleWrongAnswer(c, answer.value, fragment);
      }
      ok := true;
    }

    /** `handleCorrectAnswer` on the sender's room: a new fragment and one
        more point, the response, then the engine passes the turn. */
    method HandleCorrectAnswer(c: GameClient, answer: string, newCharSet: string, fragment: string)
      requires c.roomId in states.roomState && states.Valid()
      modifies this, states
      ensures states.Valid()
      ensures CorrectAnswerOutcome(old(states.roomState), old(outbox), c, answer, newCharSet, fragment, states.roomState, outbox)
    {
      var state := states.roomState[c.roomId];
      var message := BuildAnswer(c.roomId, c.userId, true, answer, newCharSet,
                                 GetOr0(state.points, c.userId) + 1, GetOr0(state.lives, c.userId));
      ScoredKeeps(state, c.userId, newCharSet);
      var room, effects := PlayCorrectAnswer(state, c.userId, answer, newCharSet, fragment);
      states.roomState := states.roomState[c.roomId := room];
      outbox := outbox + [BroadcastRequested(c.userId, c.roomId, message)] + effects;
    }

    /** `handleWrongAnswer` on the sender's room: the response with the
        current fragment, score and lives, then the engine's wrong-answer
        rule. */
    method HandleWrongAnswer(c: GameClient, answer: string, fragment: string)
      requires c.roomId in states.roomState && states.Valid()
      modifies this, states
      ensures states.Valid()
      ensures WrongAnswerOutcome(old(states.roomState), old(outbox), c, answer, fragment, states.roomState, outbox)
    {
      var state := states.roomState[c.roomId];
      var message := BuildAnswer(c.roomId, c.userId, false, answer, state.charSet,
                                 GetOr0(state.points, c.userId), GetOr0(state.lives, c.userId));
      var room, effects := PlayWrongAnswer(state, c.userId, answer, fragment);
      states.roomState := states.roomState[c.roomId := room];
      outbox := outbox + [BroadcastRequested(c.userId, c.roomId, message)] + effects;
    }
  }
}
