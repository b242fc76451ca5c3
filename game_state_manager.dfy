/** The room-state store of websocket/game_state_manager.go: a map from
    room id to that room's state. Go hands out references into the map; the
    handlers of this iteration read a state, change it and store it back
    in the same step. The mutex is left out. */
module WebsocketGameStateManager {
  import opened GoValues
  import opened GameRoomStateModel
  import opened RoomLifecycle
  import GameConfig

  class GameStateManager {
    var roomState: map<RoomId, GameRoomState>

    /** `NewGameStateManager`: no rooms. */
    constructor NewGameStateManager()
      ensures roomState == map[]
    {
      roomState := map[];
    }

    /** What the turn engine needs of every stored state. */
    predicate Valid()
      reads this
    {
      forall r :: r in roomState ==> WellFormed(roomState[r])
    }

    /** `CreateRoomState`: store a fresh state for the room, with the user
        as creator and only player and a two-minute countdown running,
        replacing whatever the room had; other rooms are untouched. */
    method CreateRoomState(roomID: RoomId, userId: UserId, now: int) returns (s: GameRoomState)
      modifies this
      ensures s == CreatedRoom(roomID, userId, now) && Consistent(s)
      ensures s.players == [userId] && s.lives[userId] == 3 && s.points[userId] == 0
      ensures roomState == old(roomState)[roomID := s]
      ensures old(Valid()) ==> Valid()
    {
      s := GameRoomState(roomID, userId, [userId], map[userId := 3], map[userId := 0],
                         0, "", false, 0, 0, 0, true, now + GameConfig.CountdownDuration, false);
      roomState := roomState[roomID := s];
    }

    /** `GetRoomState`: the stored state, or None (Go's nil) when the room
        has none. */
    function GetRoomState(roomID: RoomId): (r: Option<GameRoomState>)
      reads this
      ensures r.Some? <==> roomID in roomState
      ensures r.Some? ==> r.value == roomState[roomID]
    {
      if roomID in roomState then Some(roomState[roomID]) else None
    }

    /** `RemoveRoom`: delete exactly that room's state. */
    method RemoveRoom(roomID: RoomId)
      modifies this
      ensures roomState == old(roomState) - {roomID}
      ensures old(Valid()) ==> Valid()
    {
      roomState := roomState - {roomID};
    }

    /** `AddPlayer`: false and no change for an unknown room or a user who
        already has a Lives entry; otherwise the user is appended with 3
        lives and 0 points and the result is true. Key agreement between
        Players, Lives and Points is kept. */
    method AddPlayer(roomID: RoomId, userID: UserId) returns (added: bool)
      modifies this
      ensures added <==> roomID in old(roomState) && !IsPlayerInRoom(old(roomState)[roomID], userID)
      ensures roomID !in old(roomState) ==> roomState == old(roomState)
      ensures roomID in old(roomState) ==> roomState == old(roomState)[roomID := Joined(old(roomState)[roomID], userID)]
      ensures added ==> roomState[roomID].players == old(roomState)[roomID].players + [userID]
                        && roomState[roomID].lives[userID] == 3 && roomState[roomID].points[userID] == 0
      ensures roomID in old(roomState) && Consistent(old(roomState)[roomID]) ==> Consistent(roomState[roomID])
      ensures old(Valid()) ==> Valid()
    {
      var found := GetRoomState(roomID);
      if found.None? {
        return false;
      }
      var room := found.value;
      JoinedKeeps(room, userID);
      if !IsPlayerInRoom(room, userID) {
        room := room.(players := room.players + [userID], lives := room.lives[userID := 3],
                      points := room.points[userID := 0]);
        roomState := roomState[roomID := room];
        return true;
      }
      assert roomState == old(roomState)[roomID := room];
      return false;
    }
  }

  /** Creating a room and then adding its creator changes nothing more:
      the creator is a player already. */
  lemma CreatorIsAlreadyAPlayer(roomID: RoomId, userId: UserId, now: int)
    ensures IsPlayerInRoom(CreatedRoom(roomID, userId, now), userId)
    ensures Joined(CreatedRoom(roomID, userId, now), userId) == CreatedRoom(roomID, userId, now)
  {
  }
}
