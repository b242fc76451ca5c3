/** The per-room game state shared by every iteration of the server
    (domain/model/game_room_state_model.go), with the invariants its
    updates keep. Go's `*GameRoomState` reference is modelled by this value:
    every handler reads the stored value, changes it and stores it back. */
module GameRoomStateModel {
  import opened GoValues
  import GameConfig

  type UserId = nat
  type RoomId = nat

  /** Time is a count of nanoseconds; `countdownTimer` records whether a
      countdown timer has been armed for the room (Go: a non-nil
      `*time.Timer`). */
  datatype GameRoomState = GameRoomState(
    roomId: RoomId,
    createdBy: UserId,
    players: seq<UserId>,
    lives: map<UserId, int>,
    points: map<UserId, int>,
    turnIndex: int,
    charSet: string,
    started: bool,
    round: int,
    timeLimit: int,
    winnerId: UserId,
    countdownStarted: bool,
    countdownEndTime: int,
    countdownTimer: bool)

  /** A player with lives left. */
  predicate Alive(s: GameRoomState, u: UserId) {
    GetOr0(s.lives, u) > 0
  }

  /** What every reachable state satisfies: the turn index points into
      `players`, and only players ever hold positive lives (lives are set
      to their initial value only when a user is appended to `players`). */
  predicate WellFormed(s: GameRoomState) {
    && 0 <= s.turnIndex < |s.players|
    && (forall u :: u in s.lives && s.lives[u] > 0 ==> u in s.players)
  }

  predicate NoDuplicates(xs: seq<UserId>) {
    forall i, j :: 0 <= i < j < |xs| ==> xs[i] != xs[j]
  }

  /** Players, Lives and Points describe the same set of users, each
      player once. */
  predicate KeysAgree(s: GameRoomState) {
    && NoDuplicates(s.players)
    && (forall u :: u in s.lives ==> u in s.players)
    && (forall u :: u in s.points ==> u in s.players)
    && (forall i :: 0 <= i < |s.players| ==> s.players[i] in s.lives && s.players[i] in s.points)
  }

  predicate Consistent(s: GameRoomState) {
    WellFormed(s) && KeysAgree(s)
  }

  /** A room as its first join creates it: the joiner is its only player,
      with the initial lives and points, and the turn index at 0. */
  function FoundedRoom(roomId: RoomId, createdBy: UserId, founder: UserId,
                       countdownStarted: bool, countdownEndTime: int): (s: GameRoomState)
    ensures Consistent(s)
    ensures s.players == [founder] && s.lives == map[founder := GameConfig.InitialLives]
    ensures s.points == map[founder := GameConfig.InitialPoints]
    ensures !s.started && s.round == 0 && s.turnIndex == 0
  {
    GameRoomState(roomId, createdBy, [founder], map[founder := 3], map[founder := 0],
                  0, "", false, 0, 0, 0, countdownStarted, countdownEndTime, false)
  }

  /** Appending a user that has no Lives entry yet, with 3 lives and 0 points. */
  function WithNewPlayer(s: GameRoomState, u: UserId): GameRoomState {
    s.(players := s.players + [u], lives := s.lives[u := 3], points := s.points[u := 0])
  }

  /** Joining appends at the end and keeps every existing entry; it keeps
      both invariants when the user is new. */
  lemma WithNewPlayerKeeps(s: GameRoomState, u: UserId)
    requires u !in s.lives
    ensures var t := WithNewPlayer(s, u);
      && t.players[..|s.players|] == s.players && t.players[|s.players|] == u
      && (forall v :: v in s.lives ==> v in t.lives && t.lives[v] == s.lives[v])
      && (forall v :: v in s.points && v != u ==> v in t.points && t.points[v] == s.points[v])
      && t.lives[u] == GameConfig.DefaultPlayerLives && t.points[u] == GameConfig.DefaultPlayerPoints
    ensures WellFormed(s) ==> WellFormed(WithNewPlayer(s, u))
    ensures Consistent(s) ==> Consistent(WithNewPlayer(s, u))
  {
    var t := WithNewPlayer(s, u);
    if Consistent(s) {
      assert u !in s.players;
      forall i, j | 0 <= i < j < |t.players| ensures t.players[i] != t.players[j] {
        if j == |s.players| {
          assert t.players[i] == s.players[i];
        }
      }
    }
  }

  /** A wrong answer's `Lives[uid]--` on a user who is not a player (one
      whose join the capacity check refused after it had already set the
      client's room) creates a Lives entry of -1 for a non-player: it keeps
      WellFormed but breaks KeysAgree. */
  lemma DecrementForStrangerBreaksKeys(s: GameRoomState, u: UserId)
    requires Consistent(s) && u !in s.players
    ensures var t := s.(lives := s.lives[u := GetOr0(s.lives, u) - 1]);
      WellFormed(t) && !KeysAgree(t) && t.lives[u] == -1
  {
    var t := s.(lives := s.lives[u := GetOr0(s.lives, u) - 1]);
    assert u in t.lives && u !in t.players;
  }
}
