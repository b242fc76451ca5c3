/** The fluent builder of untyped game messages
    (websocket/game_message_builder.go): a message type and a payload map
    that every `With*` setter writes one fixed key of; each setter returns
    the builder it was called on. */
module GameMessageBuilder {
  import opened GoValues
  import opened GameMessageModel

  /** The payload keys the setters write, in the order they are declared. */
  function SetterKeys(): seq<string> {
    ["timestamp", "ping_id", "room_id", "user_id", "user_name", "duration", "correct",
     "answer", "char_set", "score", "round", "lives", "text", "time_limit", "reason",
     "winner_id", "final_scores"]
  }

  /** No two setters write the same key, so together they never overwrite
      each other. */
  lemma SetterKeysDistinct()
    ensures forall i, j :: 0 <= i < j < |SetterKeys()| ==> SetterKeys()[i] != SetterKeys()[j]
  {
  }

  class MessageBuilder {
    var messageType: string
    var payload: map<string, Value>

    /** `NewGameMessage`: no type yet and an empty payload. */
    constructor NewGameMessage()
      ensures messageType == "" && payload == map[]
    {
      messageType := "";
      payload := map[];
    }

    /** Changes only the type. */
    method SetMessageType(t: string) returns (b: MessageBuilder)
      modifies this
      ensures b == this
      ensures messageType == t && payload == old(payload)
    {
      messageType := t;
      b := this;
    }

    /** Writes one key; the other keys and the type are unchanged, and a
        second write of the same key keeps the last value. */
    method Put(key: string, v: Value) returns (b: MessageBuilder)
      modifies this
      ensures b == this
      ensures messageType == old(messageType) && payload == old(payload)[key := v]
      ensures key in payload && payload[key] == v
      ensures forall k :: k in old(payload) && k != key ==> k in payload && payload[k] == old(payload)[k]
    {
      payload := payload[key := v];
      b := this;
    }

    method WithTimestamp(timestamp: int) returns (b: MessageBuilder)
      modifies this
      ensures b == this && messageType == old(messageType)
      ensures payload == old(payload)["timestamp" := Int64(timestamp)]
    {
      b := Put("timestamp", Int64(timestamp));
    }

    method WithPingId(pingId: int) returns (b: MessageBuilder)
      modifies this
      ensures b == this && messageType == old(messageType)
      ensures payload == old(payload)["ping_id" := Int(pingId)]
    {
      b := Put("ping_id", Int(pingId));
    }

    method WithRoomId(roomId: nat) returns (b: MessageBuilder)
      modifies this
      ensures b == this && messageType == old(messageType)
      ensures payload == old(payload)["room_id" := Uint(roomId)]
    {
      b := Put("room_id", Uint(roomId));
    }

    method WithUserId(userId: nat) returns (b: MessageBuilder)
      modifies this
      ensures b == this && messageType == old(messageType)
      ensures payload == old(payload)["user_id" := Uint(userId)]
    {
      b := Put("user_id", Uint(userId));
    }

    method WithUserName(userName: string) returns (b: MessageBuilder)
      modifies this
      ensures b == this && messageType == old(messageType)
      ensures payload == old(payload)["user_name" := Str(userName)]
    {
      b := Put("user_name", Str(userName));
    }

    method WithDuration(duration: int) returns (b: MessageBuilder)
      modifies this
      ensures b == this && messageType == old(messageType)
      ensures payload == old(payload)["duration" := Int(duration)]
    {
      b := Put("duration", Int(duration));
    }

    method WithCorrect(correct: bool) returns (b: MessageBuilder)
      modifies this
      ensures b == this && messageType == old(messageType)
      ensures payload == old(payload)["correct" := Bool(correct)]
    {
      b := Put("correct", Bool(correct));
    }

    method WithAnswer(answer: string) returns (b: MessageBuilder)
      modifies this
      ensures b == this && messageType == old(messageType)
      ensures payload == old(payload)["answer" := Str(answer)]
    {
      b := Put("answer", Str(answer));
    }

    method WithCharSet(charSet: string) returns (b: MessageBuilder)
      modifies this
      ensures b == this && messageType == old(messageType)
      ensures payload == old(payload)["char_set" := Str(charSet)]
    {
      b := Put("char_set", Str(charSet));
    }

    method WithScore(score: int) returns (b: MessageBuilder)
      modifies this
      ensures b == this && messageType == old(messageType)
      ensures payload == old(payload)["score" := Int(score)]
    {
      b := Put("score", Int(score));
    }

    method WithRound(round: int) returns (b: MessageBuilder)
      modifies this
      ensures b == this && messageType == old(messageType)
      ensures payload == old(payload)["round" := Int(round)]
    {
      b := Put("round", Int(round));
    }

    method WithLives(lives: int) returns (b: MessageBuilder)
      modifies this
      ensures b == this && messageType == old(messageType)
      ensures payload == old(payload)["lives" := Int(lives)]
    {
      b := Put("lives", Int(lives));
    }

    method WithText(text: string) returns (b: MessageBuilder)
      modifies this
      ensures b == this && messageType == old(messageType)
      ensures payload == old(payload)["text" := Str(text)]
    {
      b := Put("text", Str(text));
    }

    method WithTimeLimit(timeLimit: int) returns (b: MessageBuilder)
      modifies this
      ensures b == this && messageType == old(messageType)
      ensures payload == old(payload)["time_limit" := Int(timeLimit)]
    {
      b := Put("time_limit", Int(timeLimit));
    }

    method WithReason(reason: string) returns (b: MessageBuilder)
      modifies this
      ensures b == this && messageType == old(messageType)
      ensures payload == old(payload)["reason" := Str(reason)]
    {
      b := Put("reason", Str(reason));
    }

    method WithWinnerId(winnerId: nat) returns (b: MessageBuilder)
      modifies this
      ensures b == this && messageType == old(messageType)
      ensures payload == old(payload)["winner_id" := Uint(winnerId)]
    {
      b := Put("winner_id", Uint(winnerId));
    }

    method WithFinalScores(finalScores: map<string, Value>) returns (b: MessageBuilder)
      modifies this
      ensures b == this && messageType == old(messageType)
      ensures payload == old(payload)["final_scores" := Object(finalScores)]
    {
      b := Put("final_scores", Object(finalScores));
    }

    /** The message carries the accumulated type and payload; building
        changes nothing. */
    method Build() returns (m: GameMessage)
      ensures m == Message(messageType, Dynamic(Object(payload)))
      ensures Wire(m.payload) == Object(payload)
    {
      m := Message(messageType, Dynamic(Object(payload)));
    }
  }
}
