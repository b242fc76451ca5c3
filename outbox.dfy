/** What a handler asks the outside world to do. The server's writes to
    sockets, sends on its channels and timer scheduling are not performed
    in the model; each handler appends them, in issue order, to an outbox. */
module Outbox {
  import opened GoValues
  import opened GameMessageModel

  datatype Effect =
    /** `BroadcastToRoom`: a write to every client registered in the room. */
    | ToRoom(roomId: nat, msg: GameMessage)
    /** `c.WriteJSON`: a write to one client. */
    | ToClient(userId: nat, msg: GameMessage)
    /** `Broadcast <- msg`: hand the message to the pool's fan-out loop. */
    | ToBroadcastChannel(msg: GameMessage)
    /** `Register <- c` and `Unregister <- c`. */
    | ToRegisterChannel(userId: nat, roomId: nat)
    | ToUnregisterChannel(userId: nat, roomId: nat)
    /** The turn timeout goroutine: after `seconds`, fire for the player and
        turn index it captured, if the iteration captures one. */
    | TurnTimerArmed(userId: nat, seconds: int, turnIndex: Option<int>)
    /** `time.AfterFunc(nanos, handleCountdownEnd(roomId))`. */
    | CountdownArmed(roomId: nat, nanos: int)
    | CountdownStopped(roomId: nat)
    /** Calls into the pool the handlers of websocket/game_message_handler.go
        and websocket/game_timer_manager.go belong to; that pool is not part
        of this model, so what it does with them is not modelled. */
    | JoinRequested(userId: nat, roomId: nat)
    | BroadcastRequested(userId: nat, roomId: nat, msg: GameMessage)
    | TimerStartedRequested(roomId: nat, seconds: int)
    | CountdownEndRequested(roomId: nat)
    /** `c.HandlePong(ts)`: the client's keepalive records a pong. */
    | PongHandled(userId: nat, timestamp: int)
}
