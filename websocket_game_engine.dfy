/** The turn engine of websocket/game_engine.go: it works on one room's
    state in place and broadcasts messages put together with the fluent
    builder. The fragment `util.GenerateRandomWord` would return is an
    input of the methods that draw one. */
module WebsocketGameEngine {
  import opened GoValues
  import opened GameRoomStateModel
  import opened GameMessageModel
  import opened Outbox
  import opened TurnRules
  import opened GameMessageBuilder
  import GameConfig

  /** The next-turn announcement `startTurn` builds. */
  function NextTurnBuilt(s: GameRoomState, uid: UserId, fragment: string): GameMessage {
    Message(NextTurn, Dynamic(Object(map["room_id" := Uint(s.roomId), "user_id" := Uint(uid),
      "char_set" := Str(fragment), "time_limit" := Int(s.timeLimit), "round" := Int(s.round),
      "lives" := Int(GetOr0(s.lives, uid))])))
  }

  /** The turn-ended announcement, for a timeout or an answer. */
  function TurnEndedBuilt(s: GameRoomState, uid: UserId, reason: string): GameMessage {
    Message(TurnEnded, Dynamic(Object(map["room_id" := Uint(s.roomId), "user_id" := Uint(uid),
      "reason" := Str(reason), "lives" := Int(GetOr0(s.lives, uid)), "round" := Int(s.round),
      "score" := Int(GetOr0(s.points, uid))])))
  }

  /** The game-over announcement with the final score table. */
  function GameOverBuilt(s: GameRoomState, winner: UserId): GameMessage {
    Message(GameOver, Dynamic(Object(map["room_id" := Uint(s.roomId), "winner_id" := Uint(winner),
      "final_scores" := Object(FinalScores(s.points, s.lives))])))
  }

  /** What `startTurn` emits once the state `s` holds the new turn: the
      announcement and a timer for the player and turn index. */
  function TurnStartEffects(s: GameRoomState, uid: UserId, fragment: string): seq<Effect> {
    [ToRoom(s.roomId, NextTurnBuilt(s, uid, fragment)),
     TurnTimerArmed(uid, s.timeLimit, Some(s.turnIndex))]
  }

  /** What `StartNextTurn` emits from `s`. */
  function NextTurnEffects(s: GameRoomState, winner: UserId, fragment: string): seq<Effect>
    requires WellFormed(s)
  {
    if !s.started then []
    else if GameOverCondition(s.lives) then [ToRoom(s.roomId, GameOverBuilt(s, winner))]
    else
      AdvancedKeeps(s);
      var t := Advanced(s);
      TurnStartEffects(t, t.players[t.turnIndex], fragment)
  }

  /** The builder chain of `startTurn`'s announcement. */
  method BuildNextTurn(s: GameRoomState, uid: UserId, fragment: string) returns (message: GameMessage)
    ensures message == NextTurnBuilt(s, uid, fragment)
  {
    var b := new MessageBuilder.NewGameMessage();
    b := b.SetMessageType(NextTurn);
    b := b.WithRoomId(s.roomId);
    b := b.WithUserId(uid);
    b := b.WithCharSet(fragment);
    b := b.WithTimeLimit(s.timeLimit);
    b := b.WithRound(s.round);
    b := b.WithLives(GetOr0(s.lives, uid));
    message := b.Build();
  }

  /** The builder chain of the turn-ended announcements. */
  method BuildTurnEnded(s: GameRoomState, uid: UserId, reason: string) returns (message: GameMessage)
    ensures message == TurnEndedBuilt(s, uid, reason)
  {
    var b := new MessageBuilder.NewGameMessage();
    b := b.SetMessageType(TurnEnded);
    b := b.WithRoomId(s.roomId);
    b := b.WithUserId(uid);
    b := b.WithReason(reason);
    b := b.WithLives(GetOr0(s.lives, uid));
    b := b.WithRound(s.round);
    b := b.WithScore(GetOr0(s.points, uid));
    message := b.Build();
  }

  /** The builder chain of `endGame`'s announcement. */
  method BuildGameOver(s: GameRoomState, winner: UserId, scores: map<string, Value>) returns (message: GameMessage)
    requires scores == FinalScores(s.points, s.lives)
    ensures message == GameOverBuilt(s, winner)
  {
    var b := new MessageBuilder.NewGameMessage();
    b := b.SetMessageType(GameOver);
    b := b.WithRoomId(s.roomId);
    b := b.WithWinnerId(winner);
    b := b.WithFinalScores(scores);
    message := b.Build();
  }

  class GameEngine {
    var room: GameRoomState
    var outbox: seq<Effect>

    /** `NewGameEngine` over the room's current state. */
    constructor(state: GameRoomState)
      ensures room == state && outbox == []
    {
      room := state;
      outbox := [];
    }

    /** `countAlivePlayers`. */
    method CountAlivePlayers() returns (count: nat)
      ensures count == AliveCount(room.lives)
    {
      count := CountAlive(room.lives);
    }

    /** `getFinalScores`. */
    method GetFinalScores() returns (scores: map<string, Value>)
      ensures scores == FinalScores(room.points, room.lives)
    {
      scores := BuildFinalScores(room.points, room.lives);
    }

    /** `endGame`: stop the game, record the winner and announce the final
        scores. */
    method EndGame(winner: UserId)
      modifies this
      ensures room == Ended(old(room), winner)
      ensures outbox == old(outbox) + [ToRoom(room.roomId, GameOverBuilt(old(room), winner))]
    {
      room := room.(started := false, winnerId := winner);
      var scores := GetFinalScores();
      var message := BuildGameOver(room, winner, scores);
      outbox := outbox + [ToRoom(room.roomId, message)];
    }

    /** `checkEndCondition`: the game ends exactly when at most one player
        is alive, with the sole survivor or a top scorer as winner. */
    method CheckEndCondition() returns (ended: bool)
      modifies this
      ensures ended <==> GameOverCondition(old(room).lives)
      ensures ended ==> (EndedAs(old(room), room)
        && outbox == old(outbox) + [ToRoom(room.roomId, GameOverBuilt(old(room), room.winnerId))])
      ensures !ended ==> room == old(room) && outbox == old(outbox)
    {
      var aliveCount, lastAlivePlayer, highestScorePlayer := ScanLives(room.lives, room.points);
      if aliveCount <= GameConfig.MinAlivePlayersForGameEnd {
        var winnerId := WinnerOf(aliveCount, lastAlivePlayer, highestScorePlayer);
        WinnerOfIsValid(room.lives, room.points, aliveCount, lastAlivePlayer, highestScorePlayer);
        EndGame(winnerId);
        return true;
      }
      return false;
    }

    /** `startTurn`: set the time limit of the current round, announce the
        turn with a fresh fragment and arm the player's timer. The fragment
        is not stored in CharSet. */
    method StartTurn(uid: UserId, fragment: string)
      modifies this
      ensures room == old(room).(timeLimit := TimeLimitFor(old(room).round))
      ensures outbox == old(outbox) + TurnStartEffects(room, uid, fragment)
    {
      var limit := GameConfig.RoundMaxTimeLimit - room.round;
      room := room.(timeLimit := if limit > GameConfig.MinTimeLimit then limit else GameConfig.MinTimeLimit);
      var currentTurnIndex := room.turnIndex;
      var message := BuildNextTurn(room, uid, fragment);
      outbox := outbox + [ToRoom(room.roomId, message), TurnTimerArmed(uid, room.timeLimit, Some(currentTurnIndex))];
    }

    /** `StartNextTurn`: nothing while the game is stopped; the end of the
        game when at most one player is alive; otherwise the walk to the
        next alive player and its turn. */
    method StartNextTurn(fragment: string)
      requires WellFormed(room)
      modifies this
      ensures room == AfterNextTurn(old(room), room.winnerId)
      ensures old(room).started && GameOverCondition(old(room).lives) ==>
                ValidWinner(old(room).lives, old(room).points, room.winnerId)
      ensures outbox == old(outbox) + NextTurnEffects(old(room), room.winnerId, fragment)
      ensures WellFormed(room)
    {
      AfterNextTurnKeeps(old(room), room.winnerId);
      if !room.started {
        return;
      }
      var ended := CheckEndCondition();
      if ended {
        AfterNextTurnKeeps(old(room), room.winnerId);
        return;
      }
      NotOverFindsPlayer(room);
      AdvancedKeeps(room);
      var index, newRound, selected := WalkTurn(room.players, room.lives, room.turnIndex, room.round);
      room := room.(turnIndex := index, round := newRound);
      StartTurn(selected.value, fragment);
    }

    /** The timer `startTurn` armed fires for the player and turn index it
        captured: it costs that player a life only when the turn has not
        moved on since, and then passes the turn on. */
    method OnTurnTimeout(uid: UserId, capturedIndex: int, fragment: string)
      requires WellFormed(room)
      modifies this
      ensures !(old(room).turnIndex == capturedIndex && old(room).players[old(room).turnIndex] == uid) ==>
                room == old(room) && outbox == old(outbox)
      ensures old(room).turnIndex == capturedIndex && old(room).players[old(room).turnIndex] == uid ==>
                var d := Decremented(old(room), uid);
                && WellFormed(d)
                && room == AfterNextTurn(d, room.winnerId)
                && outbox == old(outbox) + [ToRoom(d.roomId, TurnEndedBuilt(d, uid, "timeout"))]
                             + NextTurnEffects(d, room.winnerId, fragment)
      ensures WellFormed(room)
    {
      if room.turnIndex == capturedIndex && room.players[room.turnIndex] == uid {
        DecrementedKeeps(room, uid);
        room := room.(lives := room.lives[uid := GetOr0(room.lives, uid) - 1]);
        var message := BuildTurnEnded(room, uid, "timeout");
        outbox := outbox + [ToRoom(room.roomId, message)];
        StartNextTurn(fragment);
      }
    }

    /** The turn-ended announcement for an answer. */
    method AnnounceTurnEnded(uid: UserId, reason: string)
      modifies this
      ensures room == old(room)
      ensures outbox == old(outbox) + [ToRoom(room.roomId, TurnEndedBuilt(room, uid, reason))]
    {
      var message := BuildTurnEnded(room, uid, reason);
      outbox := outbox + [ToRoom(room.roomId, message)];
    }

    /** `handleSuccessfulAnswer`: announce the end of the turn and pass the
        turn on. */
    method HandleSuccessfulAnswer(uid: UserId, answer: string, newCharSet: string, fragment: string)
      requires WellFormed(room)
      modifies this
      ensures room == AfterNextTurn(old(room), room.winnerId)
      ensures old(room).started && GameOverCondition(old(room).lives) ==>
                ValidWinner(old(room).lives, old(room).points, room.winnerId)
      ensures outbox == old(outbox) + [ToRoom(old(room).roomId, TurnEndedBuilt(old(room), uid, "correct_answer"))]
                        + NextTurnEffects(old(room), room.winnerId, fragment)
      ensures WellFormed(room)
    {
      AnnounceTurnEnded(uid, "correct_answer");
      StartNextTurn(fragment);
    }

    /** `handleWrongAnswer`: announce the end of the turn; end the game if
        at most one player is alive; otherwise pass the turn on only when
        the answerer has no lives left and holds the turn. */
    method HandleWrongAnswer(uid: UserId, answer: string, fragment: string)
      requires WellFormed(room)
      modifies this
      ensures var s := old(room);
        var announced := old(outbox) + [ToRoom(s.roomId, TurnEndedBuilt(s, uid, "wrong_answer"))];
        if GameOverCondition(s.lives) then
          EndedAs(s, room) && outbox == announced + [ToRoom(s.roomId, GameOverBuilt(s, room.winnerId))]
        else if GetOr0(s.lives, uid) == 0 && s.players[s.turnIndex] == uid then
          room == AfterNextTurn(s, room.winnerId) && outbox == announced + NextTurnEffects(s, room.winnerId, fragment)
        else
          room == s && outbox == announced
      ensures WellFormed(room)
    {
      AnnounceTurnEnded(uid, "wrong_answer");
      var ended := CheckEndCondition();
      if ended {
        return;
      }
      if GetOr0(room.lives, uid) == 0 && room.players[room.turnIndex] == uid {
        StartNextTurn(fragment);
      }
    }
  }
}
