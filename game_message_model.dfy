/** The game's wire messages (domain/model/game_message_model.go and
    domain/model/game_message.go): the message-type constants, the typed
    payload records with their JSON field names, and the constructors. */
module GameMessageModel {
  import opened GoValues

  const Join: string := "join"
  const Answer: string := "answer"
  const Leave: string := "leave"
  const Typing: string := "typing"
  const TimerStarted: string := "timer_started"
  const StartGame: string := "start_game"
  const NextTurn: string := "next_turn"
  const GameOver: string := "game_over"
  const UserJoined: string := "user_joined"
  const UserLeft: string := "user_left"
  const TurnEnded: string := "turn_ended"
  const Ping: string := "ping"
  const Pong: string := "pong"
  /** Only in domain/model/game_message.go. */
  const Timeout: string := "timeout"

  function MessageTypes(): seq<string> {
    [Join, Answer, Leave, Typing, TimerStarted, StartGame, NextTurn,
     GameOver, UserJoined, UserLeft, TurnEnded, Ping, Pong, Timeout]
  }

  /** A receiver can tell every message kind apart by its type string. */
  lemma MessageTypesDistinct()
    ensures forall i, j :: 0 <= i < j < |MessageTypes()| ==> MessageTypes()[i] != MessageTypes()[j]
  {
  }

  /** The payload of a message: either an untyped Go value (a
      `map[string]any` built by hand, or whatever the JSON decoder
      produced for an inbound message) or one of the typed payload
      records. */
  datatype Payload =
    | Dynamic(value: Value)
    | AnswerResponsePayload(correct: bool, answer: string, newCharSet: string,
                            score: int, lives: int, roomId: nat, userId: nat)
    | TypingPayload(text: string, roomId: nat, userId: nat)
    | TimerStartedPayload(roomId: nat, duration: int)
    | StartGamePayload(roomId: nat, charSet: string, round: int, timeLimit: int)
    | UserJoinedPayload(userId: nat, userName: string, roomId: nat)
    | UserLeftPayload(userId: nat, userName: string, roomId: nat)
    | PingPayload(timestamp: int, pingId: int)
    | PongPayload(timestamp: int)
    | GameOverPayload(roomId: nat, winnerId: nat, finalScores: map<string, Value>)
    | NextTurnPayload(roomId: nat, userId: nat, charSet: string, timeLimit: int, round: int)
    | TurnEndedPayload(roomId: nat, userId: nat, reason: string, livesLeft: int, round: int, score: int)

  /** A message as the server builds or reads it. `Message` is the
      `{Type, Payload}` record of game_message_model.go; `Envelope` is the
      record with `RoomID`, `UserID`, an optional `CharSet` and a payload
      map that websocket/pool.go, websocket/game_usecase.go, the pool and
      use cases under domain/model and usecase/ read and write. */
  datatype GameMessage =
    | Message(msgType: string, payload: Payload)
    | Envelope(msgType: string, roomId: nat, userId: nat, charSet: Option<string>, body: map<string, Value>)

  /** `json:"...,omitempty"` on an int: the key is left out for 0. */
  function OmitZero(m: map<string, Value>, key: string, v: int): map<string, Value> {
    if v == 0 then m else m[key := Int(v)]
  }

  /** `json:"...,omitempty"` on a string: the key is left out for "". */
  function OmitEmpty(m: map<string, Value>, key: string, v: string): map<string, Value> {
    if v == "" then m else m[key := Str(v)]
  }

  /** The JSON object a payload is encoded as, by the field tags of its Go
      struct. */
  function Wire(p: Payload): Value {
    match p
    case Dynamic(v) => v
    case AnswerResponsePayload(correct, answer, newCharSet, score, lives, roomId, userId) =>
      var base := map["correct" := Bool(correct), "answer" := Str(answer),
                      "room_id" := Uint(roomId), "user_id" := Uint(userId)];
      Object(OmitZero(OmitZero(OmitEmpty(base, "new_char_set", newCharSet), "score", score), "lives", lives))
    case TypingPayload(text, roomId, userId) =>
      Object(map["text" := Str(text), "room_id" := Uint(roomId), "user_id" := Uint(userId)])
    case TimerStartedPayload(roomId, duration) =>
      Object(map["room_id" := Uint(roomId), "duration" := Int(duration)])
    case StartGamePayload(roomId, charSet, round, timeLimit) =>
      Object(map["room_id" := Uint(roomId), "char_set" := Str(charSet),
                 "round" := Int(round), "time_limit" := Int(timeLimit)])
    case UserJoinedPayload(userId, userName, roomId) =>
      Object(map["user_id" := Uint(userId), "user_name" := Str(userName), "room_id" := Uint(roomId)])
    case UserLeftPayload(userId, userName, roomId) =>
      Object(map["user_id" := Uint(userId), "user_name" := Str(userName), "room_id" := Uint(roomId)])
    case PingPayload(timestamp, pingId) =>
      Object(OmitZero(map["timestamp" := Int64(timestamp)], "ping_id", pingId))
    case PongPayload(timestamp) =>
      Object(map["timestamp" := Int64(timestamp)])
    case GameOverPayload(roomId, winnerId, finalScores) =>
      Object(map["room_id" := Uint(roomId), "winner_id" := Uint(winnerId),
                 "final_scores" := Object(finalScores)])
    case NextTurnPayload(roomId, userId, charSet, timeLimit, round) =>
      Object(map["room_id" := Uint(roomId), "user_id" := Uint(userId), "char_set" := Str(charSet),
                 "time_limit" := Int(timeLimit), "round" := Int(round)])
    case TurnEndedPayload(roomId, userId, reason, livesLeft, round, score) =>
      Object(map["room_id" := Uint(roomId), "user_id" := Uint(userId), "reason" := Str(reason),
                 "lives_left" := Int(livesLeft), "round" := Int(round), "score" := Int(score)])
  }

  /** `NewAnswerResponseMessage`: an answer message with a typed payload
      carrying the ids; AnswerResponseOmitsZeroFields states which of its
      other fields are sent. */
  function NewAnswerResponseMessage(correct: bool, answer: string, roomId: nat, userId: nat,
                                    newCharSet: string, score: int, lives: int): (m: GameMessage)
    ensures m.Message? && m.msgType == Answer && !m.payload.Dynamic?
    ensures Field(Wire(m.payload), "room_id") == Some(Uint(roomId))
    ensures Field(Wire(m.payload), "user_id") == Some(Uint(userId))
  {
    Message(Answer, AnswerResponsePayload(correct, answer, newCharSet, score, lives, roomId, userId))
  }

  /** `NewTypingMessage`: the text with the sender's ids. */
  function NewTypingMessage(text: string, roomId: nat, userId: nat): (m: GameMessage)
    ensures m.Message? && m.msgType == Typing && !m.payload.Dynamic?
    ensures Wire(m.payload) == Object(map["text" := Str(text), "room_id" := Uint(roomId), "user_id" := Uint(userId)])
  {
    Message(Typing, TypingPayload(text, roomId, userId))
  }

  /** `NewTimerStartedMessage`: the room and the seconds of the countdown. */
  function NewTimerStartedMessage(roomId: nat, duration: int): (m: GameMessage)
    ensures m.Message? && m.msgType == TimerStarted
    ensures Wire(m.payload) == Object(map["room_id" := Uint(roomId), "duration" := Int(duration)])
  {
    Message(TimerStarted, TimerStartedPayload(roomId, duration))
  }

  /** `NewStartGameMessage`: the room, the first fragment, the round and
      the time limit. */
  function NewStartGameMessage(roomId: nat, charSet: string, round: int, timeLimit: int): (m: GameMessage)
    ensures m.Message? && m.msgType == StartGame
    ensures Wire(m.payload) == Object(map["room_id" := Uint(roomId), "char_set" := Str(charSet),
                                          "round" := Int(round), "time_limit" := Int(timeLimit)])
  {
    Message(StartGame, StartGamePayload(roomId, charSet, round, timeLimit))
  }

  /** `NewUserJoinedMessage`: who joined which room. */
  function NewUserJoinedMessage(userId: nat, userName: string, roomId: nat): (m: GameMessage)
    ensures m.Message? && m.msgType == UserJoined
    ensures Wire(m.payload) == Object(map["user_id" := Uint(userId), "user_name" := Str(userName), "room_id" := Uint(roomId)])
  {
    Message(UserJoined, UserJoinedPayload(userId, userName, roomId))
  }

  /** `NewUserLeftMessage`: who left which room. */
  function NewUserLeftMessage(userId: nat, userName: string, roomId: nat): (m: GameMessage)
    ensures m.Message? && m.msgType == UserLeft
    ensures Wire(m.payload) == Object(map["user_id" := Uint(userId), "user_name" := Str(userName), "room_id" := Uint(roomId)])
  {
    Message(UserLeft, UserLeftPayload(userId, userName, roomId))
  }

  /** `NewPingMessage`: the timestamp always, the ping id only when it is
      not zero. */
  function NewPingMessage(timestamp: int, pingId: int): (m: GameMessage)
    ensures m.Message? && m.msgType == Ping
    ensures Field(Wire(m.payload), "timestamp") == Some(Int64(timestamp))
    ensures Field(Wire(m.payload), "ping_id").Some? <==> pingId != 0
    ensures pingId != 0 ==> Field(Wire(m.payload), "ping_id") == Some(Int(pingId))
  {
    Message(Ping, PingPayload(timestamp, pingId))
  }

  /** `NewPongMessage`: the echoed timestamp only. */
  function NewPongMessage(timestamp: int): (m: GameMessage)
    ensures m.Message? && m.msgType == Pong
    ensures Wire(m.payload) == Object(map["timestamp" := Int64(timestamp)])
  {
    Message(Pong, PongPayload(timestamp))
  }

  /** `NewGameOverMessage`: the room, the winner and the final scores. */
  function NewGameOverMessage(roomId: nat, winnerId: nat, finalScores: map<string, Value>): (m: GameMessage)
    ensures m.Message? && m.msgType == GameOver
    ensures Wire(m.payload) == Object(map["room_id" := Uint(roomId), "winner_id" := Uint(winnerId),
                                          "final_scores" := Object(finalScores)])
  {
    Message(GameOver, GameOverPayload(roomId, winnerId, finalScores))
  }

  /** `NewNextTurnMessage`: whose turn it is, with the fragment, the time
      limit and the round. */
  function NewNextTurnMessage(roomId: nat, userId: nat, charSet: string, timeLimit: int, round: int): (m: GameMessage)
    ensures m.Message? && m.msgType == NextTurn
    ensures Wire(m.payload) == Object(map["room_id" := Uint(roomId), "user_id" := Uint(userId), "char_set" := Str(charSet),
                                          "time_limit" := Int(timeLimit), "round" := Int(round)])
  {
    Message(NextTurn, NextTurnPayload(roomId, userId, charSet, timeLimit, round))
  }

  /** `NewTurnEndedMessage`: whose turn ended, why, and their lives, round
      and score. */
  function NewTurnEndedMessage(roomId: nat, userId: nat, reason: string,
                               livesLeft: int, round: int, score: int): (m: GameMessage)
    ensures m.Message? && m.msgType == TurnEnded
    ensures Wire(m.payload) == Object(map["room_id" := Uint(roomId), "user_id" := Uint(userId), "reason" := Str(reason),
                                          "lives_left" := Int(livesLeft), "round" := Int(round), "score" := Int(score)])
  {
    Message(TurnEnded, TurnEndedPayload(roomId, userId, reason, livesLeft, round, score))
  }

  /** The field of a JSON object, if the value is an object holding it. */
  function Field(v: Value, key: string): Option<Value> {
    if v.Object? && key in v.fields then Some(v.fields[key]) else None
  }

  /** The turn-ended message carries its arguments under its JSON keys and
      nothing else; the type is "turn_ended". */
  lemma TurnEndedCarriesArguments(roomId: nat, userId: nat, reason: string,
                                  livesLeft: int, round: int, score: int)
    ensures var m := NewTurnEndedMessage(roomId, userId, reason, livesLeft, round, score);
      && m.msgType == "turn_ended"
      && Wire(m.payload).Object?
      && Wire(m.payload).fields.Keys == {"room_id", "user_id", "reason", "lives_left", "round", "score"}
      && Field(Wire(m.payload), "reason") == Some(Str(reason))
      && Field(Wire(m.payload), "lives_left") == Some(Int(livesLeft))
      && Field(Wire(m.payload), "score") == Some(Int(score))
      && Field(Wire(m.payload), "user_id") == Some(Uint(userId))
  {
  }

  /** The next-turn message carries room, user, fragment, time limit and
      round unchanged; it has no "lives" key. */
  lemma NextTurnCarriesArguments(roomId: nat, userId: nat, charSet: string, timeLimit: int, round: int)
    ensures var m := NewNextTurnMessage(roomId, userId, charSet, timeLimit, round);
      && m.msgType == "next_turn"
      && Wire(m.payload).Object?
      && Wire(m.payload).fields.Keys == {"room_id", "user_id", "char_set", "time_limit", "round"}
      && Field(Wire(m.payload), "char_set") == Some(Str(charSet))
      && Field(Wire(m.payload), "time_limit") == Some(Int(timeLimit))
      && Field(Wire(m.payload), "lives").None?
  {
  }

  /** The game-over message carries the winner and the final scores
      unchanged. */
  lemma GameOverCarriesArguments(roomId: nat, winnerId: nat, finalScores: map<string, Value>)
    ensures var m := NewGameOverMessage(roomId, winnerId, finalScores);
      && m.msgType == "game_over"
      && Field(Wire(m.payload), "winner_id") == Some(Uint(winnerId))
      && Field(Wire(m.payload), "final_scores") == Some(Object(finalScores))
  {
  }

  /** The answer response carries `correct`; because of `omitempty` a zero
      score, zero lives or an empty new fragment are not sent at all. */
  lemma AnswerResponseOmitsZeroFields(correct: bool, answer: string, roomId: nat, userId: nat,
                                      newCharSet: string, score: int, lives: int)
    ensures var w := Wire(NewAnswerResponseMessage(correct, answer, roomId, userId, newCharSet, score, lives).payload);
      && NewAnswerResponseMessage(correct, answer, roomId, userId, newCharSet, score, lives).msgType == "answer"
      && Field(w, "correct") == Some(Bool(correct))
      && Field(w, "answer") == Some(Str(answer))
      && (Field(w, "lives").Some? <==> lives != 0)
      && (Field(w, "score").Some? <==> score != 0)
      && (Field(w, "new_char_set").Some? <==> newCharSet != "")
  {
  }

  /** The joined and left announcements encode the same fields and differ
      only in their type. */
  lemma JoinedAndLeftDifferOnlyInType(userId: nat, userName: string, roomId: nat)
    ensures Wire(NewUserJoinedMessage(userId, userName, roomId).payload)
         == Wire(NewUserLeftMessage(userId, userName, roomId).payload)
    ensures NewUserJoinedMessage(userId, userName, roomId).msgType
         != NewUserLeftMessage(userId, userName, roomId).msgType
  {
  }
}
