/** The life of a room before its first turn, shared by every pool: the
    state a first join creates, the countdown that runs until the game
    starts, the time left on it, and the start itself. Time is a count of
    nanoseconds supplied by the caller (Go's `time.Now()`). */
module RoomLifecycle {
  import opened GoValues
  import opened GameRoomStateModel
  import GameConfig

  /** The state the first join to a room creates: the joiner as creator
      and only player, with a countdown ending two minutes after `now`. */
  function CreatedRoom(roomId: RoomId, userId: UserId, now: int): (s: GameRoomState)
    ensures Consistent(s)
    ensures s.roomId == roomId && s.createdBy == userId
    ensures s.players == [userId] && s.lives == map[userId := GameConfig.DefaultPlayerLives]
    ensures s.points == map[userId := GameConfig.DefaultPlayerPoints]
    ensures s.turnIndex == 0 && s.round == 0 && s.timeLimit == 0 && s.charSet == ""
    ensures !s.started && s.countdownStarted && !s.countdownTimer
    ensures s.countdownEndTime == now + GameConfig.DefaultCountdownTime
  {
    FoundedRoom(roomId, userId, userId, true, now + GameConfig.DefaultCountdownTime)
  }

  /** `int(time.Until(end).Seconds())`: the nanoseconds left, as seconds
      truncated toward zero. */
  function SecondsUntil(endTime: int, now: int): (r: int)
    ensures endTime >= now ==> r >= 0 && r * GameConfig.NanosPerSecond <= endTime - now < (r + 1) * GameConfig.NanosPerSecond
    ensures endTime < now ==> r <= 0
  {
    var d := endTime - now;
    if d >= 0 then d / GameConfig.NanosPerSecond else -((-d) / GameConfig.NanosPerSecond)
  }

  /** `GetRemainingCountdownTime` on a stored state: 0 unless a countdown is
      running and the game has not started, and never negative. */
  function CountdownSecondsLeft(s: GameRoomState, now: int): (r: nat)
    ensures !s.countdownStarted || s.started ==> r == 0
    ensures s.countdownStarted && !s.started && s.countdownEndTime >= now ==> r == SecondsUntil(s.countdownEndTime, now)
    ensures s.countdownStarted && !s.started && s.countdownEndTime < now ==> r == 0
  {
    if !s.countdownStarted || s.started then 0
    else
      var remaining := SecondsUntil(s.countdownEndTime, now);
      if remaining < 0 then 0 else remaining
  }

  /** The time left is the whole number of seconds before the countdown
      ends: positive exactly while at least one full second remains. */
  lemma CountdownSecondsLeftMeaning(s: GameRoomState, now: int)
    requires s.countdownStarted && !s.started
    ensures CountdownSecondsLeft(s, now) > 0 <==> s.countdownEndTime - now >= GameConfig.NanosPerSecond
    ensures CountdownSecondsLeft(s, now) * GameConfig.NanosPerSecond <= if s.countdownEndTime >= now then s.countdownEndTime - now else 0
  {
  }

  /** A fresh room reports the full two minutes. */
  lemma CreatedRoomCountsDownFromStart(roomId: RoomId, userId: UserId, now: int)
    ensures CountdownSecondsLeft(CreatedRoom(roomId, userId, now), now) == GameConfig.DefaultCountdownSecs
  {
  }

  /** The countdown-end transition: the game starts with a fragment, in
      round 1 with the initial time limit and the turn at the first player;
      the countdown is over. */
  function StartedGame(s: GameRoomState, charSet: string): GameRoomState {
    s.(started := true, charSet := charSet, round := GameConfig.InitialRound,
       timeLimit := GameConfig.DefaultGameTimeLimit, countdownStarted := false,
       turnIndex := GameConfig.InitialTurnIndex)
  }

  /** Starting changes nothing about who plays, keeps the invariants of a
      room with at least one player, and stops the countdown. */
  lemma StartedGameKeeps(s: GameRoomState, charSet: string)
    requires |s.players| > 0
    ensures var t := StartedGame(s, charSet);
      && t.started && t.round == 1 && t.timeLimit == 19 && t.turnIndex == 0 && !t.countdownStarted
      && t.charSet == charSet
      && t.players == s.players && t.lives == s.lives && t.points == s.points
      && (WellFormed(s) ==> WellFormed(t))
      && (KeysAgree(s) ==> KeysAgree(t))
  {
  }

  /** `canStartGame`: the state exists and the game has not started. */
  function CanStartGame(s: Option<GameRoomState>): (r: bool)
    ensures r ==> !IsGameActive(s)
    ensures s.Some? ==> (r <==> !IsGameActive(s))
  {
    s.Some? && !s.value.started
  }

  /** `isGameActive`: the state exists and the game is running. */
  function IsGameActive(s: Option<GameRoomState>): (r: bool)
    ensures s.None? ==> !r
  {
    s.Some? && s.value.started
  }

  /** The state a stored map holds for a room, as Go's `RoomsState[id]`
      (nil when absent). */
  function Lookup(states: map<RoomId, GameRoomState>, roomId: RoomId): Option<GameRoomState> {
    if roomId in states then Some(states[roomId]) else None
  }

  /** `isPlayerInRoom`: the user has a Lives entry. */
  function IsPlayerInRoom(s: GameRoomState, userId: UserId): (r: bool)
    ensures KeysAgree(s) ==> (r <==> userId in s.players)
  {
    userId in s.lives
  }

  /** Joining an existing room: a user without a Lives entry is appended
      with the default lives and points; anyone else leaves it unchanged. */
  function Joined(s: GameRoomState, userId: UserId): (t: GameRoomState)
    ensures IsPlayerInRoom(s, userId) ==> t == s
  {
    if IsPlayerInRoom(s, userId) then s else WithNewPlayer(s, userId)
  }

  /** Joining keeps both invariants, keeps every existing player, lives and
      points entry, and leaves the user with a Lives entry. */
  lemma JoinedKeeps(s: GameRoomState, userId: UserId)
    ensures IsPlayerInRoom(Joined(s, userId), userId)
    ensures WellFormed(s) ==> WellFormed(Joined(s, userId))
    ensures Consistent(s) ==> Consistent(Joined(s, userId))
    ensures Joined(s, userId).players[..|s.players|] == s.players
    ensures forall v :: v in s.lives ==> v in Joined(s, userId).lives && Joined(s, userId).lives[v] == s.lives[v]
    ensures !IsPlayerInRoom(s, userId) ==>
      Joined(s, userId).players == s.players + [userId]
      && Joined(s, userId).lives[userId] == GameConfig.DefaultPlayerLives
      && Joined(s, userId).points[userId] == GameConfig.DefaultPlayerPoints
  {
    if !IsPlayerInRoom(s, userId) {
      WithNewPlayerKeeps(s, userId);
    }
  }

  /** `GetRemainingCountdownTime(roomID)` on a pool's states: the seconds left
      on the room's countdown, 0 for a room with no state. */
  function RemainingCountdown(states: map<RoomId, GameRoomState>, roomId: RoomId, now: int): (r: nat)
    ensures roomId !in states ==> r == 0
    ensures roomId in states ==> r == CountdownSecondsLeft(states[roomId], now)
  {
    match Lookup(states, roomId)
    case None => 0
    case Some(s) => CountdownSecondsLeft(s, now)
  }

  /** A correct answer's update: the fragment is replaced and the answerer
      gains a point (Go's `Points[uid]++`, which starts a missing entry at
      0). */
  function Scored(s: GameRoomState, userId: UserId, newCharSet: string): (t: GameRoomState)
    ensures userId in t.points && t.points[userId] == GetOr0(s.points, userId) + 1
    ensures t.lives == s.lives && t.players == s.players
  {
    s.(charSet := newCharSet, points := s.points[userId := GetOr0(s.points, userId) + 1])
  }

  /** Scoring raises the answerer's points by exactly one and changes no
      one else's points, no lives, no player and no turn; it keeps both
      invariants for a player. */
  lemma ScoredKeeps(s: GameRoomState, userId: UserId, newCharSet: string)
    ensures var t := Scored(s, userId, newCharSet);
      && GetOr0(t.points, userId) == GetOr0(s.points, userId) + 1
      && (forall v :: v != userId ==> GetOr0(t.points, v) == GetOr0(s.points, v))
      && t.lives == s.lives && t.players == s.players && t.turnIndex == s.turnIndex
      && t.round == s.round && t.started == s.started && t.charSet == newCharSet
      && (WellFormed(s) ==> WellFormed(t))
      && (KeysAgree(s) && userId in s.players ==> KeysAgree(t))
  {
  }
}
