/** The countdown timers of websocket/game_timer_manager.go, over the
    room states of a GameStateManager. Arming a timer is the
    `CountdownArmed` effect; the announcement goes through the pool
    (`TimerStartedRequested`), whose code is not part of this model. */
module WebsocketGameTimerManager {
  import opened GoValues
  import opened GameRoomStateModel
  import opened Outbox
  import opened RoomLifecycle
  import opened WebsocketGameStateManager
  import GameConfig

  /** `int(duration.Seconds())`: whole seconds, truncated toward zero. */
  function DurationSeconds(duration: int): (r: int)
    ensures duration >= 0 ==> r >= 0 && r * GameConfig.NanosPerSecond <= duration < (r + 1) * GameConfig.NanosPerSecond
    ensures duration < 0 ==> r <= 0 && -duration < (-r + 1) * GameConfig.NanosPerSecond
  {
    SecondsUntil(duration, 0)
  }

  class GameTimerManager {
    const states: GameStateManager
    var outbox: seq<Effect>

    constructor(states: GameStateManager)
      ensures this.states == states && outbox == []
    {
      this.states := states;
      outbox := [];
    }

    /** `StartCountdown`: nothing for a room without state; otherwise the
        room's countdown timer is armed to fire `handleCountdownEnd` after
        `duration`, and the pool announces the whole seconds. */
    method StartCountdown(roomID: RoomId, duration: int)
      modifies this, states
      ensures roomID !in old(states.roomState) ==> states.roomState == old(states.roomState) && outbox == old(outbox)
      ensures roomID in old(states.roomState) ==>
                && states.roomState == old(states.roomState)[roomID := old(states.roomState)[roomID].(countdownTimer := true)]
                && outbox == old(outbox) + [CountdownArmed(roomID, duration), TimerStartedRequested(roomID, DurationSeconds(duration))]
      ensures old(states.Valid()) ==> states.Valid()
    {
      var roomState := states.GetRoomState(roomID);
      if roomState.None? {
        return;
      }
      states.roomState := states.roomState[roomID := roomState.value.(countdownTimer := true)];
      outbox := outbox + [CountdownArmed(roomID, duration)];
      outbox := outbox + [TimerStartedRequested(roomID, DurationSeconds(duration))];
    }

    /** `StopCountdown`: stop an armed timer; nothing without state or
        timer. The state keeps its (stopped) timer. */
    method StopCountdown(roomID: RoomId)
      modifies this
      ensures var found := states.GetRoomState(roomID);
        outbox == old(outbox) + (if found.Some? && found.value.countdownTimer then [CountdownStopped(roomID)] else [])
    {
      var roomState := states.GetRoomState(roomID);
      if roomState.Some? && roomState.value.countdownTimer {
        outbox := outbox + [CountdownStopped(roomID)];
      }
    }

    /** `GetRemainingCountdownTime`: 0 without state, without a running
        countdown or once started; otherwise the whole seconds until the
        countdown ends, and 0 once it has passed. The same value the
        pools compute. */
    function GetRemainingCountdownTime(roomID: RoomId, now: int): (r: nat)
      reads this, states
      ensures var found := states.GetRoomState(roomID);
        && (found.None? || !found.value.countdownStarted || found.value.started ==> r == 0)
        && (found.Some? && found.value.countdownStarted && !found.value.started ==>
              r == if SecondsUntil(found.value.countdownEndTime, now) < 0 then 0 else SecondsUntil(found.value.countdownEndTime, now))
        && r == RemainingCountdown(states.roomState, roomID, now)
    {
      var roomState := states.GetRoomState(roomID);
      if roomState.None? || !roomState.value.countdownStarted || roomState.value.started then 0
      else
        var remainingTime := SecondsUntil(roomState.value.countdownEndTime, now);
        if remainingTime < 0 then 0 else remainingTime
    }
  }
}
