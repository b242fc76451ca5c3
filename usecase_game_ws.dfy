/** The websocket use case of usecase/game_ws_usecase.go over the pool of
    domain/model/pool_model.go (the client's `Pool`, passed explicitly):
    joining with the capacity check, leaving, stamped broadcasts, and the
    read loop, which plays answers itself with the engine of
    usecase/game_usecase.go, draws a fresh 2-to-5-letter fragment for a
    correct answer, and starts the first turn on an `auto_start`
    next-turn message. The use case holds no state of its own. */
module UsecaseGameWs {
  import opened GoValues
  import opened GameRoomStateModel
  import opened GameMessageModel
  import opened Outbox
  import opened TurnRules
  import opened RoomLifecycle
  import opened GameClientModel
  import opened DomainModelPool
  import opened UsecaseGameUsecase
  import WebsocketPool
  import WebsocketGameManager
  import StringGenerator
  import GameConfig

  /** A correct answer from `c` on the room state `s`, with `charSet` the
      drawn fragment: the room ends as the scored state with the turn
      passed on, and the effects are the stamped report of the new
      fragment and score, then the next turn's effects. */
  ghost predicate CorrectAnswerStep(s: GameRoomState, c: GameClient, answer: string, charSet: string,
                                    t: GameRoomState, added: seq<Effect>)
    reads c
  {
    WellFormed(s) &&
    var scored := Scored(s, c.userId, charSet);
    && t == AfterNextTurn(scored, t.winnerId)
    && added == [ToBroadcastChannel(WebsocketPool.StampedEnvelope(c,
                   WebsocketPool.CorrectResponse(c, answer, charSet, GetOr0(scored.points, c.userId))))]
                + UsecaseGameUsecase.NextTurnEffects(scored, t.winnerId)
  }

  /** A wrong answer from `c` on the room state `s`: with `d` the state
      after the lost life, the effects start with the stamped report of
      the lives left; then the game ends if at most one player is alive,
      the turn passes on if the answerer is out and holds it, and
      otherwise `d` stays. */
  ghost predicate WrongAnswerStep(s: GameRoomState, c: GameClient, answer: string,
                                  t: GameRoomState, added: seq<Effect>)
    reads c
  {
    WellFormed(Decremented(s, c.userId)) &&
    var d := Decremented(s, c.userId);
    var announced := [ToBroadcastChannel(WebsocketPool.StampedEnvelope(c,
                        WebsocketPool.WrongResponse(c, answer, GetOr0(d.lives, c.userId))))];
    if GameOverCondition(d.lives) then
      EndedAs(d, t) && added == announced + [ToRoom(c.roomId, UsecaseGameUsecase.GameOverEnvelope(d, t.winnerId))]
    else if GetOr0(d.lives, c.userId) == 0 && d.players[d.turnIndex] == c.userId then
      t == AfterNextTurn(d, t.winnerId) && added == announced + UsecaseGameUsecase.NextTurnEffects(d, t.winnerId)
    else
      t == d && added == announced
  }

  /** After a correct answer from `c`, on the pool's states and outbox. */
  ghost predicate CorrectAnswerOutcome(states: map<RoomId, GameRoomState>, out: seq<Effect>, c: GameClient,
                                       answer: string, charSet: string,
                                       states': map<RoomId, GameRoomState>, out': seq<Effect>)
    reads c
  {
    && WebsocketPool.SenderRoomStep(states, out, c, states', out')
    && CorrectAnswerStep(states[c.roomId], c, answer, charSet, states'[c.roomId], out'[|out|..])
  }

  /** After a wrong answer from `c`, on the pool's states and outbox. */
  ghost predicate WrongAnswerOutcome(states: map<RoomId, GameRoomState>, out: seq<Effect>, c: GameClient,
                                     answer: string,
                                     states': map<RoomId, GameRoomState>, out': seq<Effect>)
    reads c
  {
    && WebsocketPool.SenderRoomStep(states, out, c, states', out')
    && WrongAnswerStep(states[c.roomId], c, answer, states'[c.roomId], out'[|out|..])
  }

  /** What the answer (and timeout) case does with `msg` from `c`: nothing
      unless the room's game is running and the payload holds a string
      answer; otherwise, as the answer passes `validateAnswer`, the correct
      outcome with the fragment drawn from `letterDraws`, or the wrong
      outcome. */
  ghost predicate AnswerStepped(states: map<RoomId, GameRoomState>, out: seq<Effect>, c: GameClient, msg: GameMessage,
                                dictionary: set<string>, letterDraws: seq<nat>,
                                states': map<RoomId, GameRoomState>, out': seq<Effect>)
    requires msg.Envelope?
    reads c
  {
    if IsGameActive(Lookup(states, c.roomId)) && WebsocketPool.BodyValue(msg, "answer").Str? then
      var answer := WebsocketPool.BodyValue(msg, "answer").s;
      if WebsocketGameManager.ValidateAnswer(dictionary, states[c.roomId].charSet, answer) then
        && c.roomId in states'
        && 2 <= |states'[c.roomId].charSet| <= 5 && DrawnFragment(states'[c.roomId].charSet, letterDraws)
        && CorrectAnswerOutcome(states, out, c, answer, states'[c.roomId].charSet, states', out')
      else WrongAnswerOutcome(states, out, c, answer, states', out')
    else states' == states && out' == out
  }

  /** A correct answer scores exactly one point for the answerer, changes
      no one else's points, no lives and no player, and leaves the drawn
      fragment in the room. */
  lemma CorrectAnswerScores(states: map<RoomId, GameRoomState>, out: seq<Effect>, c: GameClient,
                            answer: string, charSet: string,
                            states': map<RoomId, GameRoomState>, out': seq<Effect>)
    requires CorrectAnswerOutcome(states, out, c, answer, charSet, states', out')
    ensures var s, t := states[c.roomId], states'[c.roomId];
      && t.players == s.players && t.lives == s.lives && t.charSet == charSet
      && GetOr0(t.points, c.userId) == GetOr0(s.points, c.userId) + 1
      && (forall v :: v != c.userId ==> GetOr0(t.points, v) == GetOr0(s.points, v))
    ensures out'[..|out|] == out && out'[|out|].ToBroadcastChannel?
  {
    var s := states[c.roomId];
    ScoredKeeps(s, c.userId, charSet);
    AfterNextTurnKeepsScores(Scored(s, c.userId, charSet), states'[c.roomId].winnerId);
    NextTurnKeepsFragment(Scored(s, c.userId, charSet), states'[c.roomId].winnerId);
  }

  /** A wrong answer costs the answerer exactly one life and changes no
      one else's lives and no points or players, in each of the three
      outcomes. */
  lemma WrongAnswerCostsALife(states: map<RoomId, GameRoomState>, out: seq<Effect>, c: GameClient,
                              answer: string,
                              states': map<RoomId, GameRoomState>, out': seq<Effect>)
    requires WrongAnswerOutcome(states, out, c, answer, states', out')
    ensures var s, t := states[c.roomId], states'[c.roomId];
      && t.players == s.players && t.points == s.points
      && GetOr0(t.lives, c.userId) == GetOr0(s.lives, c.userId) - 1
      && (forall v :: v != c.userId ==> GetOr0(t.lives, v) == GetOr0(s.lives, v))
    ensures out'[..|out|] == out && out'[|out|].ToBroadcastChannel?
  {
    var s := states[c.roomId];
    var d := Decremented(s, c.userId);
    DecrementedKeeps(s, c.userId);
    if !GameOverCondition(d.lives) && GetOr0(d.lives, c.userId) == 0 && d.players[d.turnIndex] == c.userId {
      AfterNextTurnKeepsScores(d, states'[c.roomId].winnerId);
    }
  }

  /** `JoinRoom`: the client's room is set first; a room with ten or more
      clients takes nothing more; otherwise the client is handed to the
      register case and told the time left on a running countdown. */
  method JoinRoom(pool: GamePool, c: GameClient, roomID: RoomId, now: int)
    modifies pool, c
    ensures c.roomId == roomID
    ensures pool.roomsState == old(pool.roomsState)
    ensures pool.RoomCount(roomID) >= GameConfig.DefaultMaxPlayers ==> pool.outbox == old(pool.outbox)
    ensures pool.RoomCount(roomID) < GameConfig.DefaultMaxPlayers ==>
              var remaining := pool.GetRemainingCountdownTime(roomID, now);
              pool.outbox == old(pool.outbox) + [ToRegisterChannel(c.userId, roomID)]
                + (if remaining > 0 then [ToClient(c.userId, WebsocketPool.TimerStartedEnvelope(roomID, remaining))] else [])
  {
    c.roomId := roomID;
    if pool.RoomCount(roomID) >= GameConfig.DefaultMaxPlayers {
      return;
    }
    pool.outbox := pool.outbox + [ToRegisterChannel(c.userId, c.roomId)];
    var remainingTime := pool.GetRemainingCountdownTime(roomID, now);
    if remainingTime > 0 {
      pool.outbox := pool.outbox + [ToClient(c.userId, WebsocketPool.TimerStartedEnvelope(roomID, remainingTime))];
    }
  }

  /** `LeaveRoom`. */
  method LeaveRoom(pool: GamePool, c: GameClient)
    modifies pool
    ensures pool.outbox == old(pool.outbox) + [ToUnregisterChannel(c.userId, c.roomId)]
    ensures pool.roomsState == old(pool.roomsState)
  {
    pool.outbox := pool.outbox + [ToUnregisterChannel(c.userId, c.roomId)];
  }

  /** `BroadcastMessage`: the message goes to the fan-out loop stamped with
      the sender's user and room. */
  method BroadcastMessage(pool: GamePool, c: GameClient, msg: GameMessage)
    requires msg.Envelope?
    modifies pool
    ensures pool.outbox == old(pool.outbox) + [ToBroadcastChannel(WebsocketPool.StampedEnvelope(c, msg))]
    ensures pool.roomsState == old(pool.roomsState)
  {
    var stamped := msg.(userId := c.userId, roomId := c.roomId);
    pool.outbox := pool.outbox + [ToBroadcastChannel(stamped)];
  }

  /** The answer (and timeout) branch of `Read`: nothing happens unless the
      room's game is running and the payload holds a string answer; then
      the answer is judged against the room's fragment and the
      dictionary. */
  method HandleAnswer(pool: GamePool, c: GameClient, msg: GameMessage, dictionary: set<string>,
                      lengthDraw: nat, letterDraws: seq<nat>) returns (ok: bool)
    requires pool.Valid() && msg.Envelope? && FragmentDraws(lengthDraw, letterDraws)
    modifies pool
    ensures pool.Valid()
    ensures ok <==> IsGameActive(Lookup(old(pool.roomsState), c.roomId)) && WebsocketPool.BodyValue(msg, "answer").Str?
    ensures !ok ==> pool.roomsState == old(pool.roomsState) && pool.outbox == old(pool.outbox)
    ensures ok && WebsocketGameManager.ValidateAnswer(dictionary, old(pool.roomsState)[c.roomId].charSet,
                                                     WebsocketPool.BodyValue(msg, "answer").s) ==>
              && c.roomId in pool.roomsState
              && 2 <= |pool.roomsState[c.roomId].charSet| <= 5
              && DrawnFragment(pool.roomsState[c.roomId].charSet, letterDraws)
              && CorrectAnswerOutcome(old(pool.roomsState), old(pool.outbox), c, WebsocketPool.BodyValue(msg, "answer").s,
                                      pool.roomsState[c.roomId].charSet, pool.roomsState, pool.outbox)
    ensures ok && !WebsocketGameManager.ValidateAnswer(dictionary, old(pool.roomsState)[c.roomId].charSet,
                                                      WebsocketPool.BodyValue(msg, "answer").s) ==>
              WrongAnswerOutcome(old(pool.roomsState), old(pool.outbox), c, WebsocketPool.BodyValue(msg, "answer").s,
                                 pool.roomsState, pool.outbox)
    ensures AnswerStepped(old(pool.roomsState), old(pool.outbox), c, msg, dictionary, letterDraws, pool.roomsState, pool.outbox)
  {
    var found := Lookup(pool.roomsState, c.roomId);
    if !IsGameActive(found) {
      return false;
    }
    var answerRaw := WebsocketPool.BodyValue(msg, "answer");
    if !answerRaw.Str? {
      return false;
    }
    var answer := answerRaw.s;
    if WebsocketGameManager.ValidateAnswer(dictionary, found.value.charSet, answer) {
      HandleCorrectAnswer(pool, c, answer, lengthDraw, letterDraws);
    } else {
      HandleWrongAnswer(pool, c, answer);
    }
    ok := true;
  }

  /** The correct-answer branch of the answer case. */
  method HandleCorrectAnswer(pool: GamePool, c: GameClient, answer: string, lengthDraw: nat, letterDraws: seq<nat>)
    requires pool.Valid() && c.roomId in pool.roomsState && FragmentDraws(lengthDraw, letterDraws)
    modifies pool
    ensures pool.Valid()
    ensures c.roomId in pool.roomsState
    ensures 2 <= |pool.roomsState[c.roomId].charSet| <= 5 && DrawnFragment(pool.roomsState[c.roomId].charSet, letterDraws)
    ensures CorrectAnswerOutcome(old(pool.roomsState), old(pool.outbox), c, answer, pool.roomsState[c.roomId].charSet,
                                 pool.roomsState, pool.outbox)
  {
    var charSet := StringGenerator.GenerateRandomString(2, 5, lengthDraw, letterDraws);
    var room, effects := PlayCorrectAnswer(pool.roomsState[c.roomId], c, answer, charSet);
    pool.roomsState := pool.roomsState[c.roomId := room];
    pool.outbox := pool.outbox + effects;
    assert pool.outbox[|old(pool.outbox)|..] == effects;
  }

  /** The wrong-answer branch of the answer case. */
  method HandleWrongAnswer(pool: GamePool, c: GameClient, answer: string)
    requires pool.Valid() && c.roomId in pool.roomsState
    modifies pool
    ensures pool.Valid()
    ensures WrongAnswerOutcome(old(pool.roomsState), old(pool.outbox), c, answer, pool.roomsState, pool.outbox)
  {
    var room, effects := PlayWrongAnswerFrom(pool.roomsState[c.roomId], c, answer);
    pool.roomsState := pool.roomsState[c.roomId := room];
    pool.outbox := pool.outbox + effects;
    assert pool.outbox[|old(pool.outbox)|..] == effects;
  }

  /** The correct-answer branch on the sender's state: the drawn fragment
      and the point, the stamped report, then the engine passes the turn. */
  method PlayCorrectAnswer(state: GameRoomState, c: GameClient, answer: string, charSet: string)
    returns (room: GameRoomState, effects: seq<Effect>)
    requires WellFormed(state) && state.roomId == c.roomId
    ensures WellFormed(room) && room.roomId == state.roomId && room.charSet == charSet
    ensures CorrectAnswerStep(state, c, answer, charSet, room, effects)
  {
    var gameRoomState := state;
    ScoredKeeps(gameRoomState, c.userId, charSet);
    gameRoomState := gameRoomState.(charSet := charSet);
    gameRoomState := gameRoomState.(points := gameRoomState.points[c.userId := GetOr0(gameRoomState.points, c.userId) + 1]);
    var report := WebsocketPool.StampedEnvelope(c, WebsocketPool.CorrectResponse(c, answer, gameRoomState.charSet, gameRoomState.points[c.userId]));
    var played;
    room, played := PlayNextTurn(gameRoomState);
    NextTurnKeepsFragment(gameRoomState, room.winnerId);
    effects := [ToBroadcastChannel(report)] + played;
  }

  /** The wrong-answer branch on the sender's state: the lost life, the
      stamped report, then the engine's end check and turn rule. */
  method PlayWrongAnswerFrom(state: GameRoomState, c: GameClient, answer: string)
    returns (room: GameRoomState, effects: seq<Effect>)
    requires WellFormed(state) && state.roomId == c.roomId
    ensures WellFormed(room) && room.roomId == state.roomId
    ensures WrongAnswerStep(state, c, answer, room, effects)
  {
    DecrementedKeeps(state, c.userId);
    var gameRoomState := Decremented(state, c.userId);
    var report := WebsocketPool.StampedEnvelope(c, WebsocketPool.WrongResponse(c, answer, GetOr0(gameRoomState.lives, c.userId)));
    var played;
    room, played := PlayWrongAnswer(gameRoomState, c.userId);
    effects := [ToBroadcastChannel(report)] + played;
  }

  /** The engine over `state` after a correct answer: `StartNextTurn`,
      returning the state to write back and what the engine emitted. */
  method PlayNextTurn(state: GameRoomState) returns (room: GameRoomState, effects: seq<Effect>)
    requires WellFormed(state)
    ensures room == AfterNextTurn(state, room.winnerId) && WellFormed(room) && room.roomId == state.roomId
    ensures effects == UsecaseGameUsecase.NextTurnEffects(state, room.winnerId)
  {
    var game := new GameUsecase(state);
    game.StartNextTurn();
    AfterNextTurnKeepsScores(state, game.room.winnerId);
    room, effects := game.room, game.outbox;
  }

  /** The engine over `state` after a wrong answer from `uid`: the end
      check, then the next turn only when `uid` is out and holds the
      turn. */
  method PlayWrongAnswer(state: GameRoomState, uid: UserId) returns (room: GameRoomState, effects: seq<Effect>)
    requires WellFormed(state)
    ensures WellFormed(room) && room.roomId == state.roomId
    ensures if GameOverCondition(state.lives) then
              EndedAs(state, room) && effects == [ToRoom(state.roomId, UsecaseGameUsecase.GameOverEnvelope(state, room.winnerId))]
            else if GetOr0(state.lives, uid) == 0 && state.players[state.turnIndex] == uid then
              room == AfterNextTurn(state, room.winnerId) && effects == UsecaseGameUsecase.NextTurnEffects(state, room.winnerId)
            else
              room == state && effects == []
  {
    var game := new GameUsecase(state);
    var ended := game.CheckEndCondition();
    if !ended {
      if GetOr0(game.room.lives, uid) == 0 && game.room.players[game.room.turnIndex] == uid {
        game.StartNextTurn();
        AfterNextTurnKeepsScores(state, game.room.winnerId);
      }
    }
    room, effects := game.room, game.outbox;
  }

  /** The next-turn branch of `Read`: an `auto_start` of true on a room
      whose game is running starts the next turn; anything else changes
      nothing. */
  method HandleNextTurn(pool: GamePool, c: GameClient, msg: GameMessage)
    requires pool.Valid() && msg.Envelope?
    modifies pool
    ensures pool.Valid()
    ensures !(WebsocketPool.BodyValue(msg, "auto_start") == Bool(true) && IsGameActive(Lookup(old(pool.roomsState), c.roomId))) ==>
              pool.roomsState == old(pool.roomsState) && pool.outbox == old(pool.outbox)
    ensures WebsocketPool.BodyValue(msg, "auto_start") == Bool(true) && IsGameActive(Lookup(old(pool.roomsState), c.roomId)) ==>
              var s := old(pool.roomsState)[c.roomId];
              && c.roomId in pool.roomsState
              && pool.roomsState == old(pool.roomsState)[c.roomId := AfterNextTurn(s, pool.roomsState[c.roomId].winnerId)]
              && pool.outbox == old(pool.outbox) + UsecaseGameUsecase.NextTurnEffects(s, pool.roomsState[c.roomId].winnerId)
  {
    var autoStart := WebsocketPool.BodyValue(msg, "auto_start");
    if autoStart.Bool? && autoStart.b {
      var found := Lookup(pool.roomsState, c.roomId);
      if IsGameActive(found) {
        var game := new GameUsecase(found.value);
        game.StartNextTurn();
        pool.roomsState := pool.roomsState[c.roomId := game.room];
        pool.outbox := pool.outbox + game.outbox;
      }
    }
  }

  /** The typing branch of `Read`: nothing for a room without state;
      otherwise the text (nil when absent) goes to the fan-out loop. */
  method HandleTyping(pool: GamePool, c: GameClient, msg: GameMessage)
    requires msg.Envelope?
    modifies pool
    ensures c.roomId !in old(pool.roomsState) ==> pool.outbox == old(pool.outbox)
    ensures c.roomId in old(pool.roomsState) ==>
              pool.outbox == old(pool.outbox) + [ToBroadcastChannel(Envelope(Typing, c.roomId, c.userId, None,
                                                   map["text" := WebsocketPool.BodyValue(msg, "text")]))]
    ensures pool.roomsState == old(pool.roomsState)
  {
    if c.roomId !in pool.roomsState {
      return;
    }
    pool.outbox := pool.outbox + [ToBroadcastChannel(Envelope(Typing, c.roomId, c.userId, None,
                                                              map["text" := WebsocketPool.BodyValue(msg, "text")]))];
  }

  /** One message of the `Read` loop: a join to room 0 is refused, answers
      and timeouts are judged, next-turn, leave and typing go to their
      branches, and any other type changes nothing. */
  method ReadStep(pool: GamePool, c: GameClient, msg: GameMessage, now: int, dictionary: set<string>,
                  lengthDraw: nat, letterDraws: seq<nat>)
    requires pool.Valid() && msg.Envelope? && FragmentDraws(lengthDraw, letterDraws)
    modifies pool, c
    ensures pool.Valid()
    ensures msg.msgType == Join && msg.roomId == 0 ==> pool.outbox == old(pool.outbox) && c.roomId == old(c.roomId)
    ensures msg.msgType == Join && msg.roomId != 0 ==> c.roomId == msg.roomId
    ensures msg.msgType != Join ==> c.roomId == old(c.roomId)
    ensures msg.msgType == Leave ==> pool.outbox == old(pool.outbox) + [ToUnregisterChannel(c.userId, c.roomId)]
    ensures msg.msgType in {Join, Leave, Typing} ==> pool.roomsState == old(pool.roomsState)
    ensures msg.msgType in {Answer, Timeout} ==>
              AnswerStepped(old(pool.roomsState), old(pool.outbox), c, msg, dictionary, letterDraws, pool.roomsState, pool.outbox)
    ensures msg.msgType == NextTurn ==>
              var passes := WebsocketPool.BodyValue(msg, "auto_start") == Bool(true) && IsGameActive(Lookup(old(pool.roomsState), c.roomId));
              && (!passes ==> pool.roomsState == old(pool.roomsState) && pool.outbox == old(pool.outbox))
              && (passes ==>
                    var s := old(pool.roomsState)[c.roomId];
                    && c.roomId in pool.roomsState
                    && pool.roomsState == old(pool.roomsState)[c.roomId := AfterNextTurn(s, pool.roomsState[c.roomId].winnerId)]
                    && pool.outbox == old(pool.outbox) + UsecaseGameUsecase.NextTurnEffects(s, pool.roomsState[c.roomId].winnerId))
    ensures msg.msgType == Typing ==>
              && (c.roomId in old(pool.roomsState) ==>
                    pool.outbox == old(pool.outbox) + [ToBroadcastChannel(Envelope(Typing, c.roomId, c.userId, None,
                                                         map["text" := WebsocketPool.BodyValue(msg, "text")]))])
              && (c.roomId !in old(pool.roomsState) ==> pool.outbox == old(pool.outbox))
    ensures msg.msgType !in {Join, Answer, Timeout, NextTurn, Leave, Typing} ==>
              pool.roomsState == old(pool.roomsState) && pool.outbox == old(pool.outbox)
  {
    match msg.msgType {
      case Join =>
        if msg.roomId != 0 {
          JoinRoom(pool, c, msg.roomId, now);
        }
      case Answer =>
        var _ := HandleAnswer(pool, c, msg, dictionary, lengthDraw, letterDraws);
      case Timeout =>
        var _ := HandleAnswer(pool, c, msg, dictionary, lengthDraw, letterDraws);
      case NextTurn =>
        HandleNextTurn(pool, c, msg);
      case Leave =>
        LeaveRoom(pool, c);
      case Typing =>
        HandleTyping(pool, c, msg);
      case _ =>
    }
  }
}
