/** The turn engine of websocket/game_usecase.go: the iteration of the
    engine that keeps its limits inline (20 and 5) and broadcasts messages
    written as struct literals with a room id, a user id and a payload map.
    The fragment `util.GenerateRandomWord` would return is an input of the
    methods that draw one. */
module WebsocketGameUsecase {
  import opened GoValues
  import opened GameRoomStateModel
  import opened GameMessageModel
  import opened Outbox
  import opened TurnRules

  /** The next-turn announcement `startTurn` broadcasts. */
  function NextTurnEnvelope(s: GameRoomState, uid: UserId, fragment: string): GameMessage {
    Envelope(NextTurn, s.roomId, 0, None, map["user_id" := Uint(uid), "char_set" := Str(fragment),
      "time_limit" := Int(s.timeLimit), "round" := Int(s.round)])
  }

  /** The turn-ended announcement, for a timeout or an answer. */
  function TurnEndedEnvelope(s: GameRoomState, uid: UserId, reason: string): GameMessage {
    Envelope(TurnEnded, s.roomId, uid, None, map["reason" := Str(reason),
      "lives_left" := Int(GetOr0(s.lives, uid)), "round" := Int(s.round),
      "score" := Int(GetOr0(s.points, uid))])
  }

  /** The game-over announcement with the final score table. */
  function GameOverEnvelope(s: GameRoomState, winner: UserId): GameMessage {
    Envelope(GameOver, s.roomId, 0, None, map["winner_id" := Uint(winner),
      "final_scores" := Object(FinalScores(s.points, s.lives))])
  }

  /** What `startTurn` emits once the state `s` holds the new turn: the
      announcement and a timer for the player and turn index. */
  function TurnStartEffects(s: GameRoomState, uid: UserId, fragment: string): seq<Effect> {
    [ToRoom(s.roomId, NextTurnEnvelope(s, uid, fragment)),
     TurnTimerArmed(uid, s.timeLimit, Some(s.turnIndex))]
  }

  /** What `StartNextTurn` emits from `s`. */
  function NextTurnEffects(s: GameRoomState, winner: UserId, fragment: string): seq<Effect>
    requires WellFormed(s)
  {
    if !s.started then []
    else if GameOverCondition(s.lives) then [ToRoom(s.roomId, GameOverEnvelope(s, winner))]
    else
      AdvancedKeeps(s);
      var t := Advanced(s);
      TurnStartEffects(t, t.players[t.turnIndex], fragment)
  }

  class GameUsecase {
    var room: GameRoomState
    var outbox: seq<Effect>

    /** `NewGameUsecase` over the room's current state. */
    constructor(state: GameRoomState)
      ensures room == state && outbox == []
    {
      room := state;
      outbox := [];
    }

    /** `countAlivePlayers`. */
    method CountAlivePlayers() returns (count: nat)
      ensures count == AliveCount(room.lives)
    {
      count := CountAlive(room.lives);
    }

    /** `getFinalScores`. */
    method GetFinalScores() returns (scores: map<string, Value>)
      ensures scores == FinalScores(room.points, room.lives)
    {
      scores := BuildFinalScores(room.points, room.lives);
    }

    /** `endGame`: stop the game, record the winner and announce the final
        scores. */
    method EndGame(winner: UserId)
      modifies this
      ensures room == Ended(old(room), winner)
      ensures outbox == old(outbox) + [ToRoom(room.roomId, GameOverEnvelope(old(room), winner))]
    {
      room := room.(started := false, winnerId := winner);
      var scores := GetFinalScores();
      var message := Envelope(GameOver, room.roomId, 0, None,
        map["winner_id" := Uint(winner), "final_scores" := Object(scores)]);
      outbox := outbox + [ToRoom(room.roomId, message)];
    }

    /** `checkEndCondition`: the game ends exactly when at most one player
        is alive, with the sole survivor or a top scorer as winner. */
    method CheckEndCondition() returns (ended: bool)
      modifies this
      ensures ended <==> GameOverCondition(old(room).lives)
      ensures ended ==> (EndedAs(old(room), room)
        && outbox == old(outbox) + [ToRoom(room.roomId, GameOverEnvelope(old(room), room.winnerId))])
      ensures !ended ==> room == old(room) && outbox == old(outbox)
    {
      var aliveCount, lastAlivePlayer, highestScorePlayer := ScanLives(room.lives, room.points);
      if aliveCount <= 1 {
        var winnerId := WinnerOf(aliveCount, lastAlivePlayer, highestScorePlayer);
        WinnerOfIsValid(room.lives, room.points, aliveCount, lastAlivePlayer, highestScorePlayer);
        EndGame(winnerId);
        return true;
      }
      return false;
    }

    /** `startTurn`: set the time limit of the current round, announce the
        turn with a fresh fragment and arm the player's timer. The fragment
        is not stored in CharSet. */
    method StartTurn(uid: UserId, fragment: string)
      modifies this
      ensures room == old(room).(timeLimit := TimeLimitFor(old(room).round))
      ensures outbox == old(outbox) + TurnStartEffects(room, uid, fragment)
    {
      var limit := 20 - room.round;
      room := room.(timeLimit := if limit > 5 then limit else 5);
      var currentTurnIndex := room.turnIndex;
      var message := Envelope(NextTurn, room.roomId, 0, None, map["user_id" := Uint(uid),
        "char_set" := Str(fragment), "time_limit" := Int(room.timeLimit), "round" := Int(room.round)]);
      outbox := outbox + [ToRoom(room.roomId, message), TurnTimerArmed(uid, room.timeLimit, Some(currentTurnIndex))];
    }

    /** `StartNextTurn`: nothing while the game is stopped; the end of the
        game when at most one player is alive; otherwise the walk to the
        next alive player and its turn. */
    method StartNextTurn(fragment: string)
      requires WellFormed(room)
      modifies this
      ensures room == AfterNextTurn(old(room), room.winnerId)
      ensures old(room).started && GameOverCondition(old(room).lives) ==>
                ValidWinner(old(room).lives, old(room).points, room.winnerId)
      ensures outbox == old(outbox) + NextTurnEffects(old(room), room.winnerId, fragment)
      ensures WellFormed(room)
    {
      AfterNextTurnKeeps(old(room), room.winnerId);
      if !room.started {
        return;
      }
      var ended := CheckEndCondition();
      if ended {
        AfterNextTurnKeeps(old(room), room.winnerId);
        return;
      }
      NotOverFindsPlayer(room);
      AdvancedKeeps(room);
      var index, newRound, selected := WalkTurn(room.players, room.lives, room.turnIndex, room.round);
      room := room.(turnIndex := index, round := newRound);
      StartTurn(selected.value, fragment);
    }

    /** The timer `startTurn` armed fires for the player and turn index it
        captured: it costs that player a life only when the turn has not
        moved on since, and then passes the turn on. */
    method OnTurnTimeout(uid: UserId, capturedIndex: int, fragment: string)
      requires WellFormed(room)
      modifies this
      ensures !(old(room).turnIndex == capturedIndex && old(room).players[old(room).turnIndex] == uid) ==>
                room == old(room) && outbox == old(outbox)
      ensures old(room).turnIndex == capturedIndex && old(room).players[old(room).turnIndex] == uid ==>
                var d := Decremented(old(room), uid);
                && WellFormed(d)
                && room == AfterNextTurn(d, room.winnerId)
                && outbox == old(outbox) + [ToRoom(d.roomId, TurnEndedEnvelope(d, uid, "timeout"))]
                             + NextTurnEffects(d, room.winnerId, fragment)
      ensures WellFormed(room)
    {
      if room.turnIndex == capturedIndex && room.players[room.turnIndex] == uid {
        DecrementedKeeps(room, uid);
        room := room.(lives := room.lives[uid := GetOr0(room.lives, uid) - 1]);
        var message := Envelope(TurnEnded, room.roomId, uid, None, map["reason" := Str("timeout"),
          "lives_left" := Int(GetOr0(room.lives, uid)), "round" := Int(room.round),
          "score" := Int(GetOr0(room.points, uid))]);
        outbox := outbox + [ToRoom(room.roomId, message)];
        StartNextTurn(fragment);
      }
    }

    /** The turn-ended announcement for an answer. */
    method AnnounceTurnEnded(uid: UserId, reason: string)
      modifies this
      ensures room == old(room)
      ensures outbox == old(outbox) + [ToRoom(room.roomId, TurnEndedEnvelope(room, uid, reason))]
    {
      var message := Envelope(TurnEnded, room.roomId, uid, None, map["reason" := Str(reason),
        "lives_left" := Int(GetOr0(room.lives, uid)), "round" := Int(room.round),
        "score" := Int(GetOr0(room.points, uid))]);
      outbox := outbox + [ToRoom(room.roomId, message)];
    }

    /** `handleSuccessfulAnswer`: announce the end of the turn and pass the
        turn on. */
    method HandleSuccessfulAnswer(uid: UserId, answer: string, newCharSet: string, fragment: string)
      requires WellFormed(room)
      modifies this
      ensures room == AfterNextTurn(old(room), room.winnerId)
      ensures old(room).started && GameOverCondition(old(room).lives) ==>
                ValidWinner(old(room).lives, old(room).points, room.winnerId)
      ensures outbox == old(outbox) + [ToRoom(old(room).roomId, TurnEndedEnvelope(old(room), uid, "correct_answer"))]
                        + NextTurnEffects(old(room), room.winnerId, fragment)
      ensures WellFormed(room)
    {
      AnnounceTurnEnded(uid, "correct_answer");
      StartNextTurn(fragment);
    }

    /** `handleWrongAnswer`: announce the end of the turn; end the game if
        at most one player is alive; otherwise pass the turn on only when
        the answerer has no lives left and holds the turn. */
    method HandleWrongAnswer(uid: UserId, answer: string, fragment: string)
      requires WellFormed(room)
      modifies this
      ensures var s := old(room);
        var announced := old(outbox) + [ToRoom(s.roomId, TurnEndedEnvelope(s, uid, "wrong_answer"))];
        if GameOverCondition(s.lives) then
          EndedAs(s, room) && outbox == announced + [ToRoom(s.roomId, GameOverEnvelope(s, room.winnerId))]
        else if GetOr0(s.lives, uid) == 0 && s.players[s.turnIndex] == uid then
          room == AfterNextTurn(s, room.winnerId) && outbox == announced + NextTurnEffects(s, room.winnerId, fragment)
        else
          room == s && outbox == announced
      ensures WellFormed(room)
    {
      AnnounceTurnEnded(uid, "wrong_answer");
      var ended := CheckEndCondition();
      if ended {
        return;
      }
      if GetOr0(room.lives, uid) == 0 && room.players[room.turnIndex] == uid {
        StartNextTurn(fragment);
      }
    }
  }
}
