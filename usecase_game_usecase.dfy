/** The oldest turn engine (usecase/game_usecase.go), built over the pool
    of domain/model/pool_model.go. It differs from the later iterations in
    three ways: `startTurn` clamps the time limit by assignment, the next
    turn is announced with the room's current fragment (no new one is
    drawn), and the turn timer captures only the player, so a timeout
    costs a life whenever that player holds the turn when it fires. */
module UsecaseGameUsecase {
  import opened GoValues
  import opened GameRoomStateModel
  import opened GameMessageModel
  import opened Outbox
  import opened TurnRules

  /** The next-turn announcement, with the room's own fragment. */
  function NextTurnEnvelope(s: GameRoomState, uid: UserId): GameMessage {
    Envelope(NextTurn, s.roomId, 0, None, map["user_id" := Uint(uid), "char_set" := Str(s.charSet),
      "time_limit" := Int(s.timeLimit), "round" := Int(s.round)])
  }

  /** The timeout announcement. */
  function TimeoutEnvelope(s: GameRoomState, uid: UserId): GameMessage {
    Envelope(Timeout, s.roomId, uid, None, map["lives_left" := Int(GetOr0(s.lives, uid)),
      "round" := Int(s.round), "winner_id" := Uint(s.winnerId)])
  }

  /** The game-over announcement with the final score table. */
  function GameOverEnvelope(s: GameRoomState, winner: UserId): GameMessage {
    Envelope(GameOver, s.roomId, 0, None, map["winner_id" := Uint(winner),
      "final_scores" := Object(FinalScores(s.points, s.lives))])
  }

  /** What `startTurn` emits once `s` holds the new turn: the announcement
      and a timer that captures only the player. */
  function TurnStartEffects(s: GameRoomState, uid: UserId): seq<Effect> {
    [ToRoom(s.roomId, NextTurnEnvelope(s, uid)), TurnTimerArmed(uid, s.timeLimit, None)]
  }

  /** What `StartNextTurn` emits from `s`. */
  function NextTurnEffects(s: GameRoomState, winner: UserId): seq<Effect>
    requires WellFormed(s)
  {
    if !s.started then []
    else if GameOverCondition(s.lives) then [ToRoom(s.roomId, GameOverEnvelope(s, winner))]
    else
      AdvancedKeeps(s);
      var t := Advanced(s);
      TurnStartEffects(t, t.players[t.turnIndex])
  }

  /** The next turn is announced with the fragment the room already has:
      the walk never changes it, and every announcement carries it. */
  lemma NextTurnKeepsFragment(s: GameRoomState, winner: UserId)
    requires WellFormed(s)
    ensures AfterNextTurn(s, winner).charSet == s.charSet
    ensures forall e :: e in NextTurnEffects(s, winner) && e.ToRoom? && e.msg.Envelope? && e.msg.msgType == NextTurn ==>
              "char_set" in e.msg.body && e.msg.body["char_set"] == Str(s.charSet)
    ensures forall e :: e in NextTurnEffects(s, winner) && e.TurnTimerArmed? ==> e.turnIndex.None? && e.seconds >= 5
  {
    AdvancedKeeps(s);
    if s.started && !GameOverCondition(s.lives) {
      var t := Advanced(s);
      assert NextTurnEffects(s, winner) == TurnStartEffects(t, t.players[t.turnIndex]);
      if t == s {
        NotOverFindsPlayer(s);
      }
    }
  }

  class GameUsecase {
    var room: GameRoomState
    var outbox: seq<Effect>

    /** `NewGameUsecase` over the room's current state. */
    constructor(state: GameRoomState)
      ensures room == state && outbox == []
    {
      room := state;
      outbox := [];
    }

    /** `countAlivePlayers`. */
    method CountAlivePlayers() returns (count: nat)
      ensures count == AliveCount(room.lives)
    {
      count := CountAlive(room.lives);
    }

    /** `getFinalScores`. */
    method GetFinalScores() returns (scores: map<string, Value>)
      ensures scores == FinalScores(room.points, room.lives)
    {
      scores := BuildFinalScores(room.points, room.lives);
    }

    /** `endGame`: stop the game, record the winner and announce the final
        scores. */
    method EndGame(winner: UserId)
      modifies this
      ensures room == Ended(old(room), winner)
      ensures outbox == old(outbox) + [ToRoom(room.roomId, GameOverEnvelope(old(room), winner))]
    {
      room := room.(started := false, winnerId := winner);
      var scores := GetFinalScores();
      var message := Envelope(GameOver, room.roomId, 0, None,
        map["winner_id" := Uint(winner), "final_scores" := Object(scores)]);
      outbox := outbox + [ToRoom(room.roomId, message)];
    }

    /** `checkEndCondition`: the game ends exactly when at most one player
        is alive, with the sole survivor or a top scorer as winner. */
    method CheckEndCondition() returns (ended: bool)
      modifies this
      ensures ended <==> GameOverCondition(old(room).lives)
      ensures ended ==> (EndedAs(old(room), room)
        && outbox == old(outbox) + [ToRoom(room.roomId, GameOverEnvelope(old(room), room.winnerId))])
      ensures !ended ==> room == old(room) && outbox == old(outbox)
    {
      var aliveCount, lastAlivePlayer, highestScorePlayer := ScanLives(room.lives, room.points);
      if aliveCount <= 1 {
        var winnerId := WinnerOf(aliveCount, lastAlivePlayer, highestScorePlayer);
        WinnerOfIsValid(room.lives, room.points, aliveCount, lastAlivePlayer, highestScorePlayer);
        EndGame(winnerId);
        return true;
      }
      return false;
    }

    /** `startTurn`: the time limit is `20 - Round`, raised to 5 when
        lower; the turn is announced with the stored fragment and the
        player's timer armed. */
    method StartTurn(uid: UserId)
      modifies this
      ensures room == old(room).(timeLimit := TimeLimitFor(old(room).round))
      ensures room.timeLimit >= 5 && room.charSet == old(room).charSet
      ensures outbox == old(outbox) + TurnStartEffects(room, uid)
    {
      room := room.(timeLimit := 20 - room.round);
      if room.timeLimit < 5 {
        room := room.(timeLimit := 5);
      }
      var message := Envelope(NextTurn, room.roomId, 0, None, map["user_id" := Uint(uid),
        "char_set" := Str(room.charSet), "time_limit" := Int(room.timeLimit), "round" := Int(room.round)]);
      outbox := outbox + [ToRoom(room.roomId, message), TurnTimerArmed(uid, room.timeLimit, None)];
    }

    /** `StartNextTurn`: nothing while the game is stopped; the end of the
        game when at most one player is alive; otherwise the walk to the
        next alive player and its turn. */
    method StartNextTurn()
      requires WellFormed(room)
      modifies this
      ensures room == AfterNextTurn(old(room), room.winnerId)
      ensures old(room).started && GameOverCondition(old(room).lives) ==>
                ValidWinner(old(room).lives, old(room).points, room.winnerId)
      ensures outbox == old(outbox) + NextTurnEffects(old(room), room.winnerId)
      ensures WellFormed(room)
    {
      AfterNextTurnKeeps(old(room), room.winnerId);
      if !room.started {
        return;
      }
      var ended := CheckEndCondition();
      if ended {
        AfterNextTurnKeeps(old(room), room.winnerId);
        return;
      }
      NotOverFindsPlayer(room);
      AdvancedKeeps(room);
      var index, newRound, selected := WalkTurn(room.players, room.lives, room.turnIndex, room.round);
      room := room.(turnIndex := index, round := newRound);
      StartTurn(selected.value);
    }

    /** The timer `startTurn` armed fires for the player it captured: when
        that player holds the turn, they lose a life, the timeout is
        announced and the turn passes on; otherwise nothing happens. */
    method OnTurnTimeout(uid: UserId)
      requires WellFormed(room)
      modifies this
      ensures !(old(room).turnIndex < |old(room).players| && old(room).players[old(room).turnIndex] == uid) ==>
                room == old(room) && outbox == old(outbox)
      ensures old(room).turnIndex < |old(room).players| && old(room).players[old(room).turnIndex] == uid ==>
                var d := Decremented(old(room), uid);
                && WellFormed(d)
                && room == AfterNextTurn(d, room.winnerId)
                && outbox == old(outbox) + [ToRoom(d.roomId, TimeoutEnvelope(d, uid))]
                             + NextTurnEffects(d, room.winnerId)
      ensures WellFormed(room)
    {
      if room.turnIndex < |room.players| && room.players[room.turnIndex] == uid {
        DecrementedKeeps(room, uid);
        room := room.(lives := room.lives[uid := GetOr0(room.lives, uid) - 1]);
        var message := Envelope(Timeout, room.roomId, uid, None, map["lives_left" := Int(GetOr0(room.lives, uid)),
          "round" := Int(room.round), "winner_id" := Uint(room.winnerId)]);
        outbox := outbox + [ToRoom(room.roomId, message)];
        StartNextTurn();
      }
    }
  }

  /** A timeout that fires costs a life to the player holding the turn,
      and only to them, and keeps every player and point. */
  lemma TimeoutCostsOneLife(s: GameRoomState, uid: UserId, winner: UserId)
    requires WellFormed(s) && s.players[s.turnIndex] == uid
    ensures var d := Decremented(s, uid);
      && GetOr0(d.lives, uid) == GetOr0(s.lives, uid) - 1
      && (forall v :: v != uid ==> GetOr0(d.lives, v) == GetOr0(s.lives, v))
      && AfterNextTurn(d, winner).players == s.players && AfterNextTurn(d, winner).points == s.points
      && AfterNextTurn(d, winner).lives == d.lives
  {
    DecrementedKeeps(s, uid);
    AfterNextTurnKeepsScores(Decremented(s, uid), winner);
  }
}
