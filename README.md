# Playzio game core in Dafny

Playzio is a multiplayer word game played over websockets. Players join a
room. A two-minute countdown starts with the first join. When it ends the
game starts: players take turns, and each turn shows a short letter
fragment. The player holding the turn must answer with a dictionary word
that contains the fragment. A correct answer scores a point and passes the
turn. A wrong answer or a timeout costs a life (in most versions of the
server). The game ends when at most one player has lives left. The winner
is the sole survivor, or a top scorer when nobody is left.

The repository holds several iterations of the same server side by side.
This project models each of them as it is written:

- **websocket/pool.go**, with the turn engine of **websocket/game_usecase.go**.
  The pool keeps the connection registry and the room states, and runs a
  `Start` loop for register, unregister and broadcast. Its read loop
  handles join, answer, leave and typing messages. Modules `WebsocketPool`
  and `WebsocketGameUsecase`.
- **websocket/game_pool.go**, with the use case of **websocket/game_manager.go**.
  The pool delegates room bookkeeping (seating, countdown, cleanup, answer
  judging) to one use case per room. Modules `WebsocketGamePool`,
  `WebsocketGamePoolHandlers` and `WebsocketGameManager`.
- **websocket/game_engine.go**, **websocket/game_message_handler.go**,
  **websocket/game_state_manager.go**, **websocket/game_timer_manager.go**
  and **websocket/game_message_builder.go**. Here the turn engine builds its
  messages with a fluent builder, over a separate state store and timer
  manager. Modules `WebsocketGameEngine`, `WebsocketGameMessageHandler`,
  `WebsocketGameStateManager`, `WebsocketGameTimerManager` and
  `GameMessageBuilder`.
- **domain/model/pool_model.go**, with **usecase/game_usecase.go** and
  **usecase/game_ws_usecase.go**. This is the oldest engine. It announces
  turns with the stored fragment. At the end of the countdown it draws a
  random 2–5 letter fragment. Modules `DomainModelPool`,
  `UsecaseGameUsecase` and `UsecaseGameWs`.
- **domain/model/game_pool_model.go**, a bookkeeping pool with no countdown.
  Module `DomainModelGamePool`.

**Shared modules:**

- `GameRoomStateModel`: the per-room state and its invariants.
- `RoomLifecycle`: room creation, countdown, start, join and scoring.
- `TurnRules`: the walk to the next player, the round counter, the time
  limit, the end condition and winner, and the final score table.
- `GameMessageModel`: the wire messages.
- The utilities of bootstrap/util:
  - `CharsetUtil` and `AnswerValidator`: the dictionary and the fragments.
  - `StringGenerator`: random strings.
  - `ClientPoolHelper`: the connection registry.
- `AuthMiddleware`: the authentication middleware.

**Go primitives:**

- `GoStrings`: ASCII `ToLower`, `Contains`, `TrimSpace`, `Split` and
  `%d`.
- `GoValues`: the missing-key default of maps and the conversions to
  `uint`.

**How the model is built:**

- Objects whose fields the Go code updates are classes:
  - the pools;
  - the engines and use cases;
  - the state store and timer manager;
  - the builder;
  - the registry;
  - the client.
- Their methods carry `modifies` clauses and state the whole new state.
- What the Go code does to the outside world is appended, in issue order,
  to an `outbox` of `Outbox.Effect` values. This covers socket writes,
  channel sends, goroutine broadcasts and timers.
- The room state behind Go's `*GameRoomState` reference is a value. The
  handler that changes it stores it back in the same step.
- The current time (`time.Now()`) is an input, `now`, in nanoseconds.
- Every `rand.Intn` draw is an input with the range `rand.Intn` returns
  (`CharsetUtil.GenerateRandomWord`, `StringGenerator.GenerateRandomString`,
  and the 2–5 letter fragment of `DomainModelPool` and `UsecaseGameWs`).
- The fragments the other engines and use cases take from
  `util.GenerateRandomWord` (the `fragment` and `newCharSet` parameters)
  are arbitrary strings: their contracts hold for every fragment, and they
  are not tied to the generator.
- The dictionary file is its sequence of lines.

## Model

| member | source | states |
|---|---|---|
| GoValues.GetOr0 | websocket/game_engine.go:185 | a Go map read returns the stored value for a present key and 0 for a missing one |
| GoValues.IntToUint | websocket/game_manager.go:403-404 | `uint(v)` of a signed value is below 2^64, keeps values in range, and wraps negatives by adding 2^64 |
| GoValues.Float64ToUint | websocket/game_manager.go:399-400 | `uint(f)` drops the fraction toward zero: a non-negative float gives a result at most f and more than f - 1, and a float in (-1, 0) gives 0 |
| GameClientModel.GameClient.constructor | websocket/client.go:98-101 | a client records its user id, user name and room id |
| GameClientModel.PongFor | websocket/client.go:38-41 | the pong reply has type pong and echoes the ping's timestamp as an int64 |
| GameRoomStateModel.FoundedRoom | domain/model/game_room_state_model.go:5-20 | a founded room satisfies both invariants, and its founder is its only player with 3 lives and 0 points; it has not started, and its round and turn index are 0 |
| GameRoomStateModel.WithNewPlayerKeeps | websocket/pool.go:123-126 | appending a user with no Lives entry puts them last, keeps every existing player, lives and points entry, gives them 3 lives and 0 points, and keeps both invariants |
| GameRoomStateModel.DecrementForStrangerBreaksKeys | websocket/pool.go:300 | a wrong answer from a client who is not a player creates a Lives entry of -1; the state stays well formed but Players, Lives and Points no longer agree |
| RoomLifecycle.CreatedRoom | websocket/pool.go:88-102 | the first join's state: the joiner is creator and only player with default lives and points; the countdown is running with its end two minutes after `now`; the game has not started |
| RoomLifecycle.SecondsUntil | websocket/pool.go:376 | `int(time.Until(end).Seconds())` is the whole seconds left, truncated toward zero, and never positive once the end has passed |
| RoomLifecycle.CountdownSecondsLeft | websocket/pool.go:367-381 | the time left is 0 unless a countdown runs on an unstarted game; then it is the whole seconds left, clamped at 0 |
| RoomLifecycle.CountdownSecondsLeftMeaning | websocket/pool.go:367-381 | during a countdown the time left is positive exactly while at least a full second remains, and it never overstates the time remaining |
| RoomLifecycle.CreatedRoomCountsDownFromStart | websocket/pool.go:88-109 | a freshly created room reports the full 120 seconds |
| RoomLifecycle.StartedGameKeeps | websocket/pool.go:344-349 | the countdown end starts the game in round 1 with time limit 19, turn index 0 and the drawn fragment; it ends the countdown, keeps players, lives and points, and keeps both invariants |
| RoomLifecycle.Joined | websocket/game_manager.go:234-239 | joining a room the user already has a Lives entry in changes nothing |
| RoomLifecycle.JoinedKeeps | websocket/game_manager.go:234-239 | after a join the user is in the room; existing players and lives entries are kept; a new user is appended with 3 lives and 0 points; both invariants are kept |
| RoomLifecycle.IsPlayerInRoom | websocket/game_manager.go:276-279 | while Players, Lives and Points agree, having a Lives entry is the same as being a player |
| RoomLifecycle.CanStartGame | websocket/game_manager.go:281-283 | a startable room is never active, and a room with a state is exactly one of startable or active |
| RoomLifecycle.IsGameActive | websocket/game_manager.go:285-287 | a room without a state is never active |
| RoomLifecycle.RemainingCountdown | websocket/game_manager.go:311-325 | the time left for a room is 0 without a state and otherwise that state's countdown seconds |
| RoomLifecycle.ScoredKeeps | websocket/pool.go:282-283 | scoring raises the answerer's points by exactly one, stores the new fragment, and changes no one else's points, no lives, no player, no turn and no round |
| RoomLifecycle.Scored | websocket/pool.go:282-283 | the answerer ends with a points entry one above its old value (0 when missing), and lives and players are untouched |
| ClientPoolHelper.RegisteredShape | bootstrap/util/client_pool_helper.go:5-12 | registering maps the room and user to the client and creates the room's map only for an absent room; other rooms and users are untouched; the room grows by one exactly for a new user; no room is ever left empty |
| ClientPoolHelper.UnregisteredShape | bootstrap/util/client_pool_helper.go:14-23 | unregistering removes only that user from that room and removes the room once it is empty; an absent room is left alone; no room is left empty |
| ClientPoolHelper.RegisterThenUnregister | bootstrap/util/client_pool_helper.go:5-23 | registering a newcomer and then unregistering them restores the registry |
| ClientPoolHelper.PoolMap.RegisterClient | bootstrap/util/client_pool_helper.go:5-12 | the registry becomes the registered map |
| ClientPoolHelper.PoolMap.UnregisterClient | bootstrap/util/client_pool_helper.go:14-23 | the registry becomes the unregistered map |
| ClientPoolHelper.PoolMap.Count | websocket/pool.go:402-407 | the client count is 0 exactly when the room is absent or has no clients |
| ClientPoolHelper.RoomCount | websocket/game_manager.go:304-309 | `len(Rooms[id])` is 0 exactly when the room is absent or has no clients |
| StringGenerator.Letters | bootstrap/util/string_generator.go:6 | the alphabet is the 26 lowercase letters a to z in order |
| StringGenerator.GenerateRandomString | bootstrap/util/string_generator.go:5-13 | the string has the drawn length, between min and max; every character is the lowercase letter its draw selects |
| CharsetUtil.WordSetOfMembers | bootstrap/util/charset_util.go:30-34 | a word is in the dictionary exactly when some line of the file, trimmed and lowercased, equals it |
| CharsetUtil.WordListOfEntries | bootstrap/util/charset_util.go:30-34 | the word list has one entry per line, in file order, each line trimmed |
| CharsetUtil.WordListOfLength | bootstrap/util/charset_util.go:33 | the word list is exactly as long as the file |
| CharsetUtil.WordListOfAt | bootstrap/util/charset_util.go:31-33 | entry i of the word list is line i trimmed |
| CharsetUtil.LoadWords | bootstrap/util/charset_util.go:18-40 | the scanner loop builds exactly the dictionary set and word list of the file's lines |
| CharsetUtil.IsWordValid | bootstrap/util/charset_util.go:42-46 | a valid word has a dictionary entry of its own length (its lowercase form); against the file's lines, IsWordValidMeaning and IsWordValidIgnoresCase state it fully |
| CharsetUtil.ContainsSubstring | bootstrap/util/charset_util.go:48-50 | holds exactly when the lowercased fragment occurs at some position of the lowercased word |
| CharsetUtil.IsWordValidIgnoresCase | bootstrap/util/charset_util.go:42-46 | a word and its lowercase form are equally valid |
| CharsetUtil.IsWordValidMeaning | bootstrap/util/charset_util.go:42-46 | a word is valid exactly when some trimmed line of the file equals it up to case |
| CharsetUtil.ContainsSubstringMeaning | bootstrap/util/charset_util.go:48-50 | the fragment test means that the lowercase fragment occurs at some position of the lowercase word; the empty fragment and the word itself always pass, and the word's case does not matter |
| CharsetUtil.GenerateRandomWord | bootstrap/util/charset_util.go:52-72 | there is no fragment (the function panics) exactly when the list has fewer than 4100 words; word 4099 is returned whole when shorter than 2; otherwise the fragment has 2 or 3 characters and is a contiguous part of word 4099, of length `lengthDraw + 2`, and, when the word is longer than that, exactly its slice starting at `startDraw` |
| CharsetUtil.GenerateRandomWordUsesOneWord | bootstrap/util/charset_util.go:57 | two lists that agree on word 4099 give the same fragment for the same draws |
| AnswerValidator.LoadWordSet | bootstrap/util/answer_validator.go:16-36 | the answer validator's loader builds the same dictionary as the charset loader from the same lines |
| GoStrings.LowerChar | bootstrap/util/charset_util.go:32 | an ASCII capital moves to its lowercase letter; every other character is kept; the result is never an ASCII capital |
| GoStrings.ToLower | bootstrap/util/charset_util.go:32 | lowercasing keeps the length and lowercases every character |
| GoStrings.ToLowerIdempotent | bootstrap/util/charset_util.go:44 | lowercasing twice is lowercasing once |
| GoStrings.ContainsIff | bootstrap/util/charset_util.go:49 | `strings.Contains` holds exactly when the substring occurs at some position |
| GoStrings.ContainsEmptyAndSelf | bootstrap/util/charset_util.go:49 | every string contains the empty string and itself |
| GoStrings.Contains | bootstrap/util/charset_util.go:49 | the empty string is always contained, and a contained string is never longer than the one containing it |
| GoStrings.TrimSpace | bootstrap/util/charset_util.go:31 | trimming never lengthens a string, and keeps whole a string that neither starts nor ends with white space |
| GoStrings.LeadingSpaces | bootstrap/util/charset_util.go:31 | the leading white-space count is at most the length |
| GoStrings.TrailingSpaces | bootstrap/util/charset_util.go:31 | the trailing white-space count is at most the length |
| GoStrings.LeadingSpacesMeaning | bootstrap/util/charset_util.go:31 | every counted leading character is white space, and the first uncounted one is not |
| GoStrings.TrailingSpacesMeaning | bootstrap/util/charset_util.go:31 | every counted trailing character is white space, and the last uncounted one is not |
| GoStrings.TrimSpaceOccurs | bootstrap/util/charset_util.go:31 | what TrimSpace keeps is one contiguous part of the input, right after its leading white space |
| GoStrings.TrimSpaceEnds | bootstrap/util/charset_util.go:31 | what TrimSpace keeps neither starts nor ends with white space |
| GoStrings.Split | api/middleware/auth.go:20 | `strings.Split` on one character always yields at least one piece |
| GoStrings.SplitNoSeparator | api/middleware/auth.go:20 | a string without the separator splits into itself alone |
| GoStrings.SplitAfterPiece | api/middleware/auth.go:20 | a separator-free piece followed by the separator splits off as the first piece |
| GoStrings.SplitFirstPiece | api/middleware/auth.go:20-21 | the first piece holds no separator; with more pieces, the separator follows it and the rest splits the remainder |
| GoStrings.SplitTwoPieces | api/middleware/auth.go:20-21 | the split gives exactly two pieces with the given first one if and only if the string is that piece, the separator, and a separator-free rest |
| GoStrings.SplitTwoPiecesJoin | api/middleware/auth.go:20-27 | two pieces joined with the separator give back the input, and the second holds no separator |
| GoStrings.DigitChar | websocket/game_engine.go:207 | a decimal digit renders as a character from 0 to 9 |
| GoStrings.NatToDecimal | websocket/game_engine.go:207 | `%d` prints at least one digit, and at least two from 10 on |
| GoStrings.NatToDecimalInjective | websocket/game_engine.go:207 | different numbers print differently |
| AuthMiddleware.Claim | api/middleware/auth.go:36-41 | a claim read is the stored value, or nil when absent |
| AuthMiddleware.BearerToken | api/middleware/auth.go:20-27 | a token is found exactly when the header is "Bearer", one space and a token with no space, and it is that token |
| AuthMiddleware.ClaimsOutcome | api/middleware/auth.go:36-49 | verified claims are accepted exactly for a guest or a float user_id; a guest gets the user type, name and guest id; any other caller gets type google and the converted user id; a refusal is 401 "Invalid token (missing user_id)" |
| AuthMiddleware.Authenticate | api/middleware/auth.go:11-52 | an empty header is 401 "Missing authentication token"; a malformed header or a failed verification is 401 "Invalid authentication token"; otherwise the claims decide; every refusal is 401 |
| AuthMiddleware.AcceptedExactly | api/middleware/auth.go:11-52 | a request passes exactly when its header is "Bearer" + a space-free token that verifies to guest claims or claims with a float user_id; the caller counts as a guest exactly when the claims say so |
| AuthMiddleware.MalformedHeaderRefused | api/middleware/auth.go:20-25 | a doubled space, a trailing space or a lowercase "bearer" is refused before verification |
| GameMessageModel.MessageTypesDistinct | domain/model/game_message_model.go:8-22 | the message type constants are pairwise distinct |
| GameMessageModel.NewAnswerResponseMessage | domain/model/game_message_model.go:96-109 | the answer message has type answer and a typed payload carrying the room and user ids; which other fields are sent is stated by AnswerResponseOmitsZeroFields |
| GameMessageModel.NewTypingMessage | domain/model/game_message_model.go:111-120 | the typing message has type typing and a typed payload that encodes as exactly text, room_id and user_id |
| GameMessageModel.NewTimerStartedMessage | domain/model/game_message_model.go:122-130 | the timer message has type timer_started and encodes as exactly room_id and duration |
| GameMessageModel.NewStartGameMessage | domain/model/game_message_model.go:132-142 | the start message has type start_game and encodes as exactly room_id, char_set, round and time_limit |
| GameMessageModel.NewUserJoinedMessage | domain/model/game_message_model.go:144-153 | the joined message has type user_joined and encodes as exactly user_id, user_name and room_id |
| GameMessageModel.NewUserLeftMessage | domain/model/game_message_model.go:155-164 | the left message has type user_left and encodes as exactly user_id, user_name and room_id |
| GameMessageModel.NewPingMessage | domain/model/game_message_model.go:166-174 | the ping always sends its int64 timestamp, and sends ping_id exactly when it is not 0 (`omitempty`) |
| GameMessageModel.NewPongMessage | domain/model/game_message_model.go:176-183 | the pong has type pong and encodes as the int64 timestamp alone |
| GameMessageModel.NewGameOverMessage | domain/model/game_message_model.go:185-194 | the game-over message has type game_over and encodes as exactly room_id, winner_id and the final scores object |
| GameMessageModel.NewNextTurnMessage | domain/model/game_message_model.go:196-207 | the next-turn message has type next_turn and encodes as exactly room_id, user_id, char_set, time_limit and round |
| GameMessageModel.NewTurnEndedMessage | domain/model/game_message_model.go:209-221 | the turn-ended message has type turn_ended and encodes as exactly room_id, user_id, reason, lives_left, round and score |
| GameMessageModel.TurnEndedCarriesArguments | domain/model/game_message_model.go:209-221 | the turn-ended message has type turn_ended and sends exactly room, user, reason, lives left, round and score, as given |
| GameMessageModel.NextTurnCarriesArguments | domain/model/game_message_model.go:196-207 | the next-turn message has type next_turn and sends exactly room, user, fragment, time limit and round, with no lives |
| GameMessageModel.GameOverCarriesArguments | domain/model/game_message_model.go:185-194 | the game-over message has type game_over and carries the winner and the final scores unchanged |
| GameMessageModel.AnswerResponseOmitsZeroFields | domain/model/game_message_model.go:24-32 | the answer response always sends correct and answer; lives, score and the new fragment are sent exactly when non-zero or non-empty |
| GameMessageModel.JoinedAndLeftDifferOnlyInType | domain/model/game_message_model.go:144-164 | the joined and left announcements encode the same payload and differ in type |
| GameMessageBuilder.SetterKeysDistinct | websocket/game_message_builder.go:21-104 | no two setters write the same payload key |
| GameMessageBuilder.MessageBuilder.NewGameMessage | websocket/game_message_builder.go:10-14 | a new builder has no type and an empty payload |
| GameMessageBuilder.MessageBuilder.SetMessageType | websocket/game_message_builder.go:16-19 | only the type changes, and the same builder is returned |
| GameMessageBuilder.MessageBuilder.Put | websocket/game_message_builder.go:21-24 | one key is written; every other key and the type stay; the same builder is returned |
| GameMessageBuilder.MessageBuilder.WithTimestamp | websocket/game_message_builder.go:21-24 | writes "timestamp" as an int64 and nothing else |
| GameMessageBuilder.MessageBuilder.WithPingId | websocket/game_message_builder.go:26-29 | writes "ping_id" and nothing else |
| GameMessageBuilder.MessageBuilder.WithRoomId | websocket/game_message_builder.go:31-34 | writes "room_id" as a uint and nothing else |
| GameMessageBuilder.MessageBuilder.WithUserId | websocket/game_message_builder.go:36-39 | writes "user_id" as a uint and nothing else |
| GameMessageBuilder.MessageBuilder.WithUserName | websocket/game_message_builder.go:41-44 | writes "user_name" and nothing else |
| GameMessageBuilder.MessageBuilder.WithDuration | websocket/game_message_builder.go:46-49 | writes "duration" and nothing else |
| GameMessageBuilder.MessageBuilder.WithCorrect | websocket/game_message_builder.go:51-54 | writes "correct" and nothing else |
| GameMessageBuilder.MessageBuilder.WithAnswer | websocket/game_message_builder.go:56-59 | writes "answer" and nothing else |
| GameMessageBuilder.MessageBuilder.WithCharSet | websocket/game_message_builder.go:61-64 | writes "char_set" and nothing else |
| GameMessageBuilder.MessageBuilder.WithScore | websocket/game_message_builder.go:66-69 | writes "score" and nothing else |
| GameMessageBuilder.MessageBuilder.WithRound | websocket/game_message_builder.go:71-74 | writes "round" and nothing else |
| GameMessageBuilder.MessageBuilder.WithLives | websocket/game_message_builder.go:76-79 | writes "lives" and nothing else |
| GameMessageBuilder.MessageBuilder.WithText | websocket/game_message_builder.go:81-84 | writes "text" and nothing else |
| GameMessageBuilder.MessageBuilder.WithTimeLimit | websocket/game_message_builder.go:86-89 | writes "time_limit" and nothing else |
| GameMessageBuilder.MessageBuilder.WithReason | websocket/game_message_builder.go:91-94 | writes "reason" and nothing else |
| GameMessageBuilder.MessageBuilder.WithWinnerId | websocket/game_message_builder.go:96-99 | writes "winner_id" as a uint and nothing else |
| GameMessageBuilder.MessageBuilder.WithFinalScores | websocket/game_message_builder.go:101-104 | writes "final_scores" as an object and nothing else |
| GameMessageBuilder.MessageBuilder.Build | websocket/game_message_builder.go:106-111 | the message carries the accumulated type and payload, and its wire form is that payload |
| WebsocketGameStateManager.GameStateManager.NewGameStateManager | websocket/game_state_manager.go:22-26 | a new store has no rooms |
| WebsocketGameStateManager.GameStateManager.CreateRoomState | websocket/game_state_manager.go:28-50 | the room gets a fresh consistent state: the user is creator and only player with 3 lives and 0 points, and a two-minute countdown runs; other rooms are untouched; the store stays valid |
| WebsocketGameStateManager.GameStateManager.GetRoomState | websocket/game_state_manager.go:52-56 | the lookup finds a state exactly when the room has one, and returns that state |
| WebsocketGameStateManager.GameStateManager.RemoveRoom | websocket/game_state_manager.go:58-62 | exactly that room's state is deleted |
| WebsocketGameStateManager.GameStateManager.AddPlayer | websocket/game_state_manager.go:64-80 | returns true exactly for a known room and a user with no Lives entry; that user is appended with 3 lives and 0 points; otherwise nothing changes; consistency and validity are kept |
| WebsocketGameStateManager.CreatorIsAlreadyAPlayer | websocket/game_state_manager.go:32-37 | a created room already holds its creator, so adding them again changes nothing |
| WebsocketGameTimerManager.DurationSeconds | websocket/game_timer_manager.go:31 | `int(d.Seconds())` is the whole seconds, truncated toward zero |
| WebsocketGameTimerManager.GameTimerManager.constructor | websocket/game_timer_manager.go:21-32 | the timer manager works over the given state store with nothing emitted |
| WebsocketGameTimerManager.GameTimerManager.StartCountdown | websocket/game_timer_manager.go:21-32 | a room without state is ignored; otherwise only its timer flag changes, the countdown is armed, and the pool is asked to announce the whole seconds; the store stays valid |
| WebsocketGameTimerManager.GameTimerManager.StopCountdown | websocket/game_timer_manager.go:34-39 | an armed timer of a stored room is stopped; otherwise nothing happens |
| WebsocketGameTimerManager.GameTimerManager.GetRemainingCountdownTime | websocket/game_timer_manager.go:41-52 | 0 without state, without a running countdown or once started; otherwise the whole seconds left, clamped at 0; the same value the pools compute |
| TurnRules.SingletonOf | websocket/game_engine.go:193-194 | a one-element set that holds x is {x} |
| TurnRules.AliveAmongStep | websocket/game_engine.go:66-70 | visiting one more Lives entry adds that user to the alive set exactly when their lives are positive |
| TurnRules.CountAlive | websocket/game_engine.go:64-72 | the loop counts exactly the positive Lives entries |
| TurnRules.ScanMaxStep | websocket/game_engine.go:185-188 | one step of the score scan keeps the running maximum and a visited key holding it |
| TurnRules.ScanMaxDone | websocket/game_engine.go:177-189 | after the whole scan the reported key is a top scorer among the Lives keys, or 0 when nobody beat -1 |
| TurnRules.ScanAliveStep | websocket/game_engine.go:180-183 | one step of the count keeps the count of alive entries visited and the last alive key |
| TurnRules.ScanAliveDone | websocket/game_engine.go:174-189 | after the whole scan the count is the number of alive players, and with one alive player the last alive key is that player |
| TurnRules.ScanEntry | websocket/game_engine.go:179-189 | one loop body of checkEndCondition's scan keeps both halves of the scan's invariant |
| TurnRules.ScanLives | websocket/game_engine.go:173-189 | the scan returns the alive count, the sole survivor when there is one, and a top scorer |
| TurnRules.WinnerOfIsValid | websocket/game_engine.go:191-198 | the recorded winner is the sole survivor when exactly one player is alive, and otherwise a top scorer |
| TurnRules.FirstAliveStep | websocket/game_engine.go:50-53 | the step found is the first slot after the start whose player is alive, every earlier slot is dead, and with no step found every slot is dead |
| TurnRules.WalkTurn | websocket/game_engine.go:47-61 | the loop stops at the reference choice's index, round and player, and leaves index and round alone when nobody is alive |
| TurnRules.TimeLimitFor | websocket/game_engine.go:75 | the time limit is 20 - round, never below 5 |
| TurnRules.ChoiceIsNextAlive | websocket/game_engine.go:50-60 | the chosen slot is in range and holds an alive player; it is the first slot after the start with such a player; every slot skipped holds a dead one; with no choice, no player is alive |
| TurnRules.RoundRule | websocket/game_engine.go:54-57 | the round grows by at most one, exactly when the new index is at or before the start and the start is not the last slot |
| TurnRules.NotOverFindsPlayer | websocket/game_engine.go:43-53 | while two or more players are alive the walk always finds a player |
| TurnRules.AdvancedKeeps | websocket/game_engine.go:47-75 | the walk changes only turn index, round and time limit; the time limit is the clamped one of the new round; both invariants are kept |
| TurnRules.AfterNextTurnKeeps | websocket/game_engine.go:38-62 | StartNextTurn leaves a stopped game alone; it ends a game with at most one alive player, changing only Started and the winner; otherwise the turn lands on an alive player, the round grows by at most one, and the time limit is clamped; both invariants are kept |
| TurnRules.AfterNextTurnKeepsScores | websocket/game_engine.go:38-62 | StartNextTurn never changes the room, the players, their lives or their points |
| TurnRules.AllAliveRoundStays | websocket/game_engine.go:50-57 | when every player is alive the walk always finds one and the round never grows |
| TurnRules.LoneSurvivorWraps | websocket/game_engine.go:50-57 | a lone alive player holding the turn gets it back, and the round grows unless they sit in the last slot |
| TurnRules.DecrementedKeeps | websocket/game_engine.go:101 | `Lives[uid]--` lowers exactly that user's lives by one (a missing entry becomes -1) and keeps both invariants for a player |
| TurnRules.UserKeyInjective | websocket/game_engine.go:207 | different users get different "user_<id>" keys |
| TurnRules.ScoresOverAdd | websocket/game_engine.go:206-211 | visiting one more user adds exactly that user's entry |
| TurnRules.ScoresOverSize | websocket/game_engine.go:206-211 | the table over a set of users has one entry per user |
| TurnRules.FinalScoresShape | websocket/game_engine.go:204-213 | the table has a "user_<id>" entry for every Points key, holding that user's points and lives, and no other entry |
| TurnRules.FinalScoresSize | websocket/game_engine.go:204-213 | the table has exactly as many entries as Points has keys |
| TurnRules.BuildFinalScores | websocket/game_engine.go:204-213 | the loop builds exactly that table |
| WebsocketGameEngine.BuildNextTurn | websocket/game_engine.go:80-88 | the builder chain yields the next-turn message: room, player, fragment, time limit, round and the player's lives |
| WebsocketGameEngine.BuildTurnEnded | websocket/game_engine.go:103-111 | the builder chain yields the turn-ended message: room, player, reason, lives, round and score |
| WebsocketGameEngine.BuildGameOver | websocket/game_engine.go:163-168 | the builder chain yields the game-over message with the winner and the final scores |
| WebsocketGameEngine.GameEngine.constructor | websocket/game_engine.go:29-36 | the engine works on the given room state with nothing emitted |
| WebsocketGameEngine.GameEngine.CountAlivePlayers | websocket/game_engine.go:64-72 | the number of players with positive lives |
| WebsocketGameEngine.GameEngine.GetFinalScores | websocket/game_engine.go:204-213 | the final score table of the room |
| WebsocketGameEngine.GameEngine.EndGame | websocket/game_engine.go:159-171 | the game stops with the winner recorded, and the game-over message with the final scores goes to the room |
| WebsocketGameEngine.GameEngine.CheckEndCondition | websocket/game_engine.go:173-202 | reports the end exactly when at most one player is alive; then the game stops with the sole survivor or a top scorer and game over is announced; otherwise nothing changes |
| WebsocketGameEngine.GameEngine.StartTurn | websocket/game_engine.go:74-118 | only the time limit changes, to the clamped one of the round; the next turn is announced with the drawn fragment, which is not stored, and the player's timer is armed with the current turn index |
| WebsocketGameEngine.GameEngine.StartNextTurn | websocket/game_engine.go:38-62 | the room becomes the reference next-turn state (see TurnRules.AfterNextTurnKeeps); an ending game records a valid winner; the room stays well formed |
| WebsocketGameEngine.GameEngine.OnTurnTimeout | websocket/game_engine.go:92-117 | a timeout whose turn has moved on changes nothing; otherwise the player loses one life, the timeout is announced, and the turn passes on from there |
| WebsocketGameEngine.GameEngine.AnnounceTurnEnded | websocket/game_engine.go:121-131 | the turn-ended message goes to the room; the state is unchanged |
| WebsocketGameEngine.GameEngine.HandleSuccessfulAnswer | websocket/game_engine.go:120-134 | the end of turn is announced with reason correct_answer, then the turn passes on |
| WebsocketGameEngine.GameEngine.HandleWrongAnswer | websocket/game_engine.go:136-157 | the end of turn is announced with reason wrong_answer; with at most one player alive the game ends; otherwise the turn passes on only when the answerer has 0 lives and holds the turn; else nothing changes |
| WebsocketGameUsecase.GameUsecase.constructor | websocket/game_usecase.go:29-36 | the use case works on the given room state with nothing emitted |
| WebsocketGameUsecase.GameUsecase.CountAlivePlayers | websocket/game_usecase.go:64-72 | the number of players with positive lives |
| WebsocketGameUsecase.GameUsecase.GetFinalScores | websocket/game_usecase.go:203-212 | the final score table of the room |
| WebsocketGameUsecase.GameUsecase.EndGame | websocket/game_usecase.go:158-170 | the game stops with the winner recorded, and game over with the final scores goes to the room |
| WebsocketGameUsecase.GameUsecase.CheckEndCondition | websocket/game_usecase.go:172-201 | reports the end exactly when at most one player is alive, with the sole survivor or a top scorer as winner; otherwise nothing changes |
| WebsocketGameUsecase.GameUsecase.StartTurn | websocket/game_usecase.go:74-117 | only the time limit changes, to max(20 - round, 5); the turn is announced with the drawn fragment, which is not stored; the player's timer is armed |
| WebsocketGameUsecase.GameUsecase.StartNextTurn | websocket/game_usecase.go:38-62 | the room becomes the reference next-turn state; an ending game records a valid winner; the room stays well formed |
| WebsocketGameUsecase.GameUsecase.OnTurnTimeout | websocket/game_usecase.go:91-116 | a timeout whose turn has moved on changes nothing; otherwise the player loses one life, the timeout is announced, and the turn passes on |
| WebsocketGameUsecase.GameUsecase.AnnounceTurnEnded | websocket/game_usecase.go:120-131 | the turn-ended message goes to the room; the state is unchanged |
| WebsocketGameUsecase.GameUsecase.HandleSuccessfulAnswer | websocket/game_usecase.go:119-133 | the end of turn is announced with reason correct_answer, then the turn passes on |
| WebsocketGameUsecase.GameUsecase.HandleWrongAnswer | websocket/game_usecase.go:135-156 | the end of turn is announced with reason wrong_answer; the game ends, the turn passes on, or nothing changes, as in the engine |
| UsecaseGameUsecase.NextTurnKeepsFragment | usecase/game_usecase.go:73-82 | this engine never changes the fragment on a turn; every next-turn announcement carries the room's fragment; every turn timer lasts at least 5 seconds and captures no turn index |
| UsecaseGameUsecase.GameUsecase.constructor | usecase/game_usecase.go:24-29 | the engine works on the given room state with nothing emitted |
| UsecaseGameUsecase.GameUsecase.CountAlivePlayers | usecase/game_usecase.go:57-65 | the number of players with positive lives |
| UsecaseGameUsecase.GameUsecase.GetFinalScores | usecase/game_usecase.go:155-164 | the final score table of the room |
| UsecaseGameUsecase.GameUsecase.EndGame | usecase/game_usecase.go:110-122 | the game stops with the winner recorded, and game over with the final scores goes to the room |
| UsecaseGameUsecase.GameUsecase.CheckEndCondition | usecase/game_usecase.go:124-153 | reports the end exactly when at most one player is alive, with the sole survivor or a top scorer as winner; otherwise nothing changes |
| UsecaseGameUsecase.GameUsecase.StartTurn | usecase/game_usecase.go:67-108 | the time limit becomes 20 - round raised to 5; the fragment is kept; the turn is announced with it and the player's timer is armed |
| UsecaseGameUsecase.GameUsecase.StartNextTurn | usecase/game_usecase.go:31-55 | the room becomes the reference next-turn state; an ending game records a valid winner; the room stays well formed |
| UsecaseGameUsecase.GameUsecase.OnTurnTimeout | usecase/game_usecase.go:84-107 | the timer fires for its player; if they do not hold the turn nothing happens; otherwise they lose one life, the timeout is announced, and the turn passes on |
| UsecaseGameUsecase.TimeoutCostsOneLife | usecase/game_usecase.go:90-105 | a timeout that fires costs exactly the turn holder one life and keeps every player and point |
| WebsocketGameManager.ValidateAnswerMeaning | websocket/game_manager.go:327-329 | an answer is accepted exactly when its lowercase form holds the lowercase fragment at some position and is in the dictionary |
| WebsocketGameManager.ValidateAnswer | websocket/game_manager.go:327-329 | an accepted answer's lowercase form is in the dictionary, and with an empty fragment every dictionary word is accepted |
| WebsocketGameManager.ExtractString | websocket/game_manager.go:370-383 | a string is found exactly when the payload is a map holding a string under the key, and it is that string |
| WebsocketGameManager.ExtractUint | websocket/game_manager.go:385-409 | an id is found exactly for a float64, uint or int under the key of a map payload; floats truncate toward zero (one in (-1, 0) gives 0), uints are kept and ints wrap modulo 2^64 |
| WebsocketGameManager.BroadcastMessageAsWritten | websocket/game_manager.go:364-368 | as written, the send succeeds exactly for a map payload, which it stamps with the sender's ids; any other payload panics |
| WebsocketGameManager.AnswerBroadcastPanics | websocket/game_manager.go:335-359 | every answer response the use case builds makes BroadcastMessage panic |
| WebsocketGameManager.Stamped | websocket/game_manager.go:364-368 | the stamped message keeps the type and every payload field of the JSON form, and sets user_id and room_id to the sender's |
| WebsocketGameManager.StampedAnswerIsDelivered | websocket/game_manager.go:364-368 | a stamped answer response is routed to the sender's room by the fan-out loop and still reports type answer, the verdict and the answer |
| WebsocketGameManager.GameUsecase.constructor | websocket/game_manager.go:48-55 | the use case is its pool and its room id |
| WebsocketGameManager.GameUsecase.CountAlivePlayers | websocket/game_manager.go:83-91 | the number of players with positive lives |
| WebsocketGameManager.GameUsecase.GetFinalScores | websocket/game_manager.go:158-167 | the final score table of the room |
| WebsocketGameManager.GameUsecase.EndGame | websocket/game_manager.go:119-125 | the game stops with the winner recorded and game over is announced; only that room's state and the outbox change |
| WebsocketGameManager.GameUsecase.CheckEndCondition | websocket/game_manager.go:127-156 | reports the end exactly when at most one player is alive, with the sole survivor or a top scorer as winner; otherwise nothing changes |
| WebsocketGameManager.GameUsecase.StartTurn | websocket/game_manager.go:93-117 | only the time limit changes, to max(20 - round, 5); the turn is announced with the drawn fragment and the timer is armed |
| WebsocketGameManager.GameUsecase.StartNextTurn | websocket/game_manager.go:57-81 | the room becomes the reference next-turn state; an ending game records a valid winner; the room stays well formed |
| WebsocketGameManager.GameUsecase.OnTurnTimeout | websocket/game_manager.go:101-116 | a timeout whose turn has moved on changes nothing; otherwise the player loses one life, the timeout is announced, and the turn passes on |
| WebsocketGameManager.GameUsecase.ChargeTimeout | websocket/game_manager.go:110-112 | the player loses one life and the timeout is announced |
| WebsocketGameManager.GameUsecase.AnnounceTurnEnded | websocket/game_manager.go:170-171 | the turn-ended message goes to the room; the state is unchanged |
| WebsocketGameManager.GameUsecase.HandleSuccessfulAnswer | websocket/game_manager.go:169-174 | the end of turn is announced with reason correct_answer, then the turn passes on |
| WebsocketGameManager.GameUsecase.HandleWrongAnswer | websocket/game_manager.go:176-188 | the end of turn is announced; the game ends with at most one player alive; otherwise the turn passes on only when the answerer has 0 lives and holds it; else nothing changes |
| WebsocketGameManager.GameUsecase.StartRoomCountdown | websocket/game_manager.go:190-195 | the room's timer is armed for two minutes and 120 seconds are announced to its clients; nothing else changes |
| WebsocketGameManager.GameUsecase.HandleCountdownEnd | websocket/game_manager.go:197-218 | a missing or running game is left alone; otherwise the game starts in round 1 with the drawn fragment, the start is announced, and the first turn is played |
| WebsocketGameManager.GameUsecase.BroadcastTimerStarted | websocket/game_manager.go:220-232 | every client of the room is told the duration; an empty room gets nothing |
| WebsocketGameManager.GameUsecase.BroadcastToRoom | websocket/game_manager.go:264-270 | the message goes to the room; no state changes |
| WebsocketGameManager.GameUsecase.AddPlayerToRoom | websocket/game_manager.go:234-250 | a returning user changes nothing; a new one is appended with default lives and points, is told the time left on a running countdown, and is announced |
| WebsocketGameManager.GameUsecase.CleanupEmptyRoom | websocket/game_manager.go:252-262 | once the room has no clients its armed timer is stopped and its state deleted; otherwise nothing changes |
| WebsocketGameManager.GameUsecase.RoomCount | websocket/game_manager.go:304-309 | the number of registered clients, 0 exactly for an absent or empty room |
| WebsocketGameManager.GameUsecase.IsRoomFull | websocket/game_manager.go:272-274 | a full room is registered with at least 10 clients |
| WebsocketGameManager.GameUsecase.JoinRoom | websocket/game_manager.go:289-302 | a room with 10 or more clients takes nothing; otherwise the client goes to the register handler and is told any positive time left |
| WebsocketGameManager.GameUsecase.BroadcastMessage | websocket/game_manager.go:364-368 | the corrected send: the stamped message goes to the fan-out loop; no state changes |
| WebsocketGameManager.GameUsecase.ProcessCorrectAnswer | websocket/game_manager.go:331-347 | the room is scored (new fragment, one more point) and the turn passes on; the stamped response with the new score and lives goes out first, then the turn-ended notice |
| WebsocketGameManager.GameUsecase.ScoreAnswer | websocket/game_manager.go:332-344 | the new fragment and the point are stored and the stamped response goes out |
| WebsocketGameManager.GameUsecase.ProcessWrongAnswer | websocket/game_manager.go:349-362 | no lives or points are taken here; the stamped response with the current lives goes out, then the wrong-answer rule runs |
| WebsocketGamePool.BroadcastRoom | websocket/game_pool.go:143 | the fan-out loop finds a room exactly when the payload is a map holding a uint room_id, and it is that room |
| WebsocketGamePool.TypedPayloadPanics | websocket/game_pool.go:143 | a typed payload never reaches a room: the assertion panics |
| WebsocketGamePool.TruncateToInt | websocket/game_pool.go:231 | `int64(f)` truncates toward zero |
| WebsocketGamePool.TimestampOf | websocket/game_pool.go:229-230 | a timestamp is read exactly from a map payload with a float64 "timestamp", truncated |
| WebsocketGamePool.GamePool.NewGamePool | websocket/game_pool.go:30-36 | a new pool has no clients, no states and no use cases |
| WebsocketGamePool.GamePool.LeaveRoom | websocket/game_pool.go:207-209 | the client is sent to the unregister handler; no state changes |
| WebsocketGamePool.GamePool.HandleBroadcast | websocket/game_pool.go:137-148 | a routable message is written to the room its payload names |
| WebsocketGamePool.GamePool.HandlePingMessage | websocket/game_pool.go:228-234 | a ping with a numeric timestamp gets a pong echoing it; any other ping is ignored |
| WebsocketGamePool.GamePool.HandlePongMessage | websocket/game_pool.go:236-242 | a pong with a numeric timestamp is recorded; any other pong is ignored |
| WebsocketGamePoolHandlers.JoinRoomId | websocket/game_pool.go:151-152 | the room asked for is the payload's float room_id truncated toward zero, so one in (-1, 0) asks for room 0 |
| WebsocketGamePoolHandlers.NegativeFractionJoinsRoomZero | websocket/game_pool.go:151-152 | a room_id in (-1, 0), such as -0.5, is an accepted join payload and asks for room 0 |
| WebsocketGamePoolHandlers.JoinedState | websocket/game_pool.go:156-177 | after a join the user is in the room and the state stays well formed; a new room holds only the joiner, with its countdown armed and the game not started |
| WebsocketGamePoolHandlers.AdmissionCountsTheJoiner | websocket/game_pool.go:179-180 | the capacity check counts the already registered joiner, so a room of nine turns away the tenth; anyone admitted is sent to the register handler |
| WebsocketGamePoolHandlers.FirstJoinEffects | websocket/game_pool.go:172-180 | a first join arms the countdown, admits the joiner and tells them the full 120 seconds |
| WebsocketGamePoolHandlers.SeatClient | websocket/game_pool.go:155-178 | the room's state becomes the joined state and the room gets a use case; a new room arms and announces its countdown, and an existing one seats the user |
| WebsocketGamePoolHandlers.HandleJoinMessage | websocket/game_pool.go:150-184 | the client moves to the requested room and is seated, registered, admitted and announced, in that order; a first joiner is the room's only client and hears 120 seconds; the pool stays valid |
| WebsocketGamePoolHandlers.FirstJoinOutbox | websocket/game_pool.go:172-182 | after a first join the room has one client and the outbox gains the armed countdown, the hand-over, the 120 seconds and the join announcement |
| WebsocketGamePoolHandlers.AdmitClient | websocket/game_pool.go:179-182 | the client is registered, JoinRoom runs and the join is announced; the states are unchanged |
| WebsocketGamePoolHandlers.ValidAfterJoin | websocket/game_pool.go:150-184 | the pool a join leaves behind satisfies the pool invariant |
| WebsocketGamePoolHandlers.HandleAnswerMessage | websocket/game_pool.go:186-205 | handled exactly for a running game and a string answer; a valid answer has the correct outcome (one point for the sender only, a new fragment, the turn passed on) and a wrong one the wrong outcome, with every effect stated; players and lives never change; the response goes out first |
| WebsocketGamePoolHandlers.AcceptAnswer | websocket/game_pool.go:199-200 | CorrectAnswerOutcome: the sender's room is scored and the turn passes on, and the outbox gains the stamped response, `turn_ended` for correct_answer and the next turn's effects; only the sender's points change, by one |
| WebsocketGamePoolHandlers.RejectAnswer | websocket/game_pool.go:201-202 | WrongAnswerOutcome: after the stamped response and `turn_ended` for wrong_answer, the game ends when at most one player is alive (with game over), the turn passes when the answerer has no lives and holds it, and otherwise the room is unchanged; players, lives and points are kept |
| WebsocketGamePoolHandlers.CorrectAnswerScores | websocket/game_pool.go:199-200 | a correct outcome scores exactly one point for the sender, changes no other points, lives or players, and sends the response to the sender's room first |
| WebsocketGamePoolHandlers.WrongAnswerKeepsScores | websocket/game_manager.go:349-361 | in each of the three wrong outcomes the players, lives and points are kept, and the response reaches the sender's room first |
| WebsocketGamePoolHandlers.TypingRelay | websocket/game_pool.go:223-224 | the corrected typing notice has type typing, is routed to the sender's room, and has the same JSON form as NewTypingMessage |
| WebsocketGamePoolHandlers.TypingBroadcastPanics | websocket/game_pool.go:223-224 | as written, the typed typing notice makes the fan-out loop panic |
| WebsocketGamePoolHandlers.HandleTypingMessage | websocket/game_pool.go:211-226 | handled exactly when the room has a state and the payload has a string text; then the notice goes to the fan-out loop; states never change |
| WebsocketGamePoolHandlers.HandleUnregister | websocket/game_pool.go:128-135 | the room hears that the user left; the client is removed; a room left empty loses its state and stops its armed countdown; the pool stays valid |
| WebsocketGamePoolHandlers.ReadStep | websocket/game_pool.go:71-92 | a join moves and registers the client; an answer has the handler's outcome (nothing, correct or wrong); leave goes to the unregister handler; typing is relayed when the room has a state and a string text; a ping with a numeric timestamp is answered with a pong and a pong recorded; unknown types change nothing; the pool stays valid |
| DomainModelGamePool.RegisteredRoom | domain/model/game_pool_model.go:35-43 | an unknown room is created consistent with the client as only player, 3 lives and 0 points, no fragment and no countdown |
| DomainModelGamePool.RegisterKeepsValid | domain/model/game_pool_model.go:31-52 | registering a client with a consistent state for its room keeps the pool invariant |
| DomainModelGamePool.RegisterKeepsAgreement | domain/model/game_pool_model.go:44-50 | a register into a known room keeps it consistent, keeps its players as a prefix, and adds the client only when it has no Lives entry |
| DomainModelGamePool.GamePool.NewGamePool | domain/model/game_pool_model.go:18-26 | a new pool has no rooms and no clients |
| DomainModelGamePool.GamePool.HandleRegister | domain/model/game_pool_model.go:31-52 | the client is recorded; an unknown room is created with it as sole player; a known room appends it only when new; nothing is sent |
| DomainModelGamePool.GamePool.CreateRoom | domain/model/game_pool_model.go:35-43 | the room gets the registered-room state |
| DomainModelGamePool.GamePool.SeatInRoom | domain/model/game_pool_model.go:44-50 | the room's state becomes the joined state |
| DomainModelGamePool.GamePool.HandleUnregister | domain/model/game_pool_model.go:54-60 | the client is removed, and the room's state goes exactly when the room has no clients left |
| DomainModelGamePool.GamePool.HandleBroadcast | domain/model/game_pool_model.go:62-68 | the message goes to its room; no state changes |
| DomainModelPool.GamePool.NewGamePool | domain/model/pool_model.go:71-76 | a new pool has no clients and no states |
| DomainModelPool.GamePool.RoomCount | domain/model/pool_model.go:256-261 | the room's client count, 0 for an absent room |
| DomainModelPool.GamePool.GetRemainingCountdownTime | domain/model/pool_model.go:221-235 | 0 outside a running countdown of an unstarted game; otherwise the whole seconds left, clamped at 0 |
| DomainModelPool.GamePool.BroadcastTimerStarted | domain/model/pool_model.go:237-254 | every client of the room is told the duration; an empty room gets nothing |
| DomainModelPool.GamePool.BroadcastToRoom | domain/model/pool_model.go:263-269 | the message goes to the room |
| DomainModelPool.GamePool.HandleRegister | domain/model/pool_model.go:81-145 | the client is registered; an unknown room is created with its countdown armed and announced; a known room seats a new user, who hears any time left and is announced; the pool stays valid |
| DomainModelPool.GamePool.FoundRoom | domain/model/pool_model.go:85-118 | the room is created with its countdown armed; the arming, the 120 seconds and the join are emitted |
| DomainModelPool.GamePool.SeatInRoom | domain/model/pool_model.go:119-144 | the room's state becomes the joined state, with the seating announcements |
| DomainModelPool.GamePool.HandleUnregister | domain/model/pool_model.go:147-167 | the room hears that the user left; the client is removed; a room left empty stops its timer and loses its state |
| DomainModelPool.GamePool.HandleBroadcast | domain/model/pool_model.go:169-179 | the message goes to its room |
| DomainModelPool.GamePool.HandleCountdownEnd | domain/model/pool_model.go:184-219 | a missing or started room is left alone; otherwise the game starts with the drawn fragment of 2 to 5 lowercase letters; the start and an auto_start next-turn request go to the room |
| WebsocketPool.BodyValue | websocket/pool.go:268 | reading a payload key returns the stored value, or nil when absent |
| WebsocketPool.StampedEnvelope | websocket/pool.go:246-250 | the sent message carries the sender's user and room and keeps the type and payload |
| WebsocketPool.RegisterKeepsValid | websocket/pool.go:83-147 | registering a client with a well-formed state for its room keeps the pool invariant |
| WebsocketPool.CorrectAnswerScores | websocket/pool.go:281-297 | a correct answer scores exactly one point for the answerer, changes no one else's points, no lives and no player, and sends the report first |
| WebsocketPool.WrongAnswerCostsALife | websocket/pool.go:299-313 | a wrong answer costs exactly the answerer one life, changes no one else's lives, no points and no player, and sends the report first |
| WebsocketPool.PlaySuccessfulAnswer | websocket/game_usecase.go:119-133 | the use case announces the end of turn with reason correct_answer and passes the turn; the new state is well formed |
| WebsocketPool.PlayWrongAnswer | websocket/game_usecase.go:135-156 | the use case announces the end of turn, then ends the game, passes the turn, or changes nothing, by the wrong-answer rule |
| WebsocketPool.PlayCorrectAnswer | websocket/pool.go:281-297 | the sender's state gets the new fragment and the point; the stamped report comes first, then the use case passes the turn |
| WebsocketPool.PlayWrongAnswerFrom | websocket/pool.go:299-313 | the sender loses a life, the stamped report of the lives left comes first, then the use case's wrong-answer rule |
| WebsocketPool.GamePool.NewGamePool | websocket/pool.go:73-78 | a new pool has no clients and no states |
| WebsocketPool.GamePool.RoomCount | websocket/pool.go:402-407 | the room's client count, 0 exactly for an absent or empty room |
| WebsocketPool.GamePool.GetRemainingCountdownTime | websocket/pool.go:367-381 | 0 without a running countdown of an unstarted game; otherwise the whole seconds left, clamped at 0 |
| WebsocketPool.GamePool.BroadcastTimerStarted | websocket/pool.go:383-400 | every client of the room is told the duration; an empty room gets nothing |
| WebsocketPool.GamePool.BroadcastToRoom | websocket/pool.go:409-415 | the message goes to the room |
| WebsocketPool.GamePool.HandleRegister | websocket/pool.go:83-147 | the client is registered; an unknown room is created with the client as sole player, its countdown armed, 120 seconds announced and the join sent; a known room seats a new user, who hears any time left; the pool stays valid |
| WebsocketPool.GamePool.FoundRoom | websocket/pool.go:87-120 | the new room's state is stored with its countdown armed and the founding announcements are emitted |
| WebsocketPool.GamePool.SeatInRoom | websocket/pool.go:121-146 | the room's state becomes the joined state, with the seating announcements |
| WebsocketPool.GamePool.HandleUnregister | websocket/pool.go:149-169 | the room hears that the user left; the client is removed; a room left empty stops its armed timer and loses its state |
| WebsocketPool.GamePool.HandleBroadcast | websocket/pool.go:171-181 | the message goes to the room it names |
| WebsocketPool.GamePool.JoinRoom | websocket/pool.go:222-240 | the client's room is set first; a room of 10 or more takes nothing more; otherwise the client goes to the register case and hears any positive time left |
| WebsocketPool.GamePool.LeaveRoom | websocket/pool.go:242-244 | the client goes to the unregister case |
| WebsocketPool.GamePool.BroadcastMessage | websocket/pool.go:246-250 | the stamped message goes to the fan-out loop |
| WebsocketPool.GamePool.HandleJoinMessage | websocket/pool.go:252-259 | a join is refused exactly for room id 0, with nothing changed; otherwise the client joins that room |
| WebsocketPool.GamePool.HandleAnswerMessage | websocket/pool.go:261-316 | handled exactly for a running game and a string answer; a valid answer scores and passes the turn; a wrong one costs a life; the pool stays valid |
| WebsocketPool.GamePool.HandleCorrectAnswer | websocket/pool.go:281-297 | the correct-answer outcome on the sender's room, with the pool kept valid |
| WebsocketPool.GamePool.HandleWrongAnswer | websocket/pool.go:299-313 | the wrong-answer outcome on the sender's room, with the pool kept valid |
| WebsocketPool.GamePool.HandleTypingMessage | websocket/pool.go:318-333 | handled exactly when the room has a state; then the text, nil when absent, goes to the fan-out loop |
| WebsocketPool.GamePool.HandleCountdownEnd | websocket/pool.go:335-365 | a missing or started room is left alone; otherwise the game starts with the drawn fragment, the start is announced and the use case plays the first turn; the pool stays valid |
| WebsocketPool.GamePool.ReadStep | websocket/pool.go:186-220 | a join to a non-zero room moves the client; an answer has the handler's outcome (nothing, correct or wrong); leave goes to the unregister handler; typing relays the text when the room has a state; other types change nothing; the pool stays valid |
| WebsocketGameMessageHandler.PayloadString | websocket/game_message_handler.go:38-45 | a string is read exactly when the key holds a string |
| WebsocketGameMessageHandler.ExtractRoomID | websocket/game_message_handler.go:79-95 | a missing room_id is reported as missing; a float64, uint or int converts to a uint (floats truncate toward zero, ints wrap); any other kind is an invalid type |
| WebsocketGameMessageHandler.NegativeFractionIsRoomZero | websocket/game_message_handler.go:86-87 | a float64 room_id in (-1, 0), such as -0.5, is extracted as room 0 |
| WebsocketGameMessageHandler.ExtractRoomIDAgreesWithManager | websocket/game_message_handler.go:79-95 | on a map payload it accepts exactly what the manager's uint extraction accepts, with the same value |
| WebsocketGameMessageHandler.AnswerBuiltReports | websocket/game_message_handler.go:101-110 | the built answer response has type answer and exactly room, user, verdict, answer, fragment, score and lives, as given |
| WebsocketGameMessageHandler.BuildAnswer | websocket/game_message_handler.go:101-110 | the builder chain yields that answer response |
| WebsocketGameMessageHandler.BuildTyping | websocket/game_message_handler.go:62-77 | the builder chain yields the typing notice |
| WebsocketGameMessageHandler.CorrectAnswerScores | websocket/game_message_handler.go:97-114 | a correct answer scores exactly one point for the answerer, changes no one else's points, no lives and no player, and its response goes out first |
| WebsocketGameMessageHandler.WrongAnswerKeepsScores | websocket/game_message_handler.go:116-130 | a wrong answer in this iteration changes no lives, no points and no player, and its response goes out first |
| WebsocketGameMessageHandler.PlayCorrectAnswer | websocket/game_message_handler.go:97-114 | the engine over the scored state announces the end of the turn and passes it on |
| WebsocketGameMessageHandler.PlayWrongAnswer | websocket/game_engine.go:136-157 | the engine's wrong-answer rule: the game ends, the turn passes on, or the state is kept |
| WebsocketGameMessageHandler.GameMessageHandler.constructor | websocket/game_message_handler.go:21-25 | the handler works over its pool's state store with nothing emitted |
| WebsocketGameMessageHandler.GameMessageHandler.HandleJoin | websocket/game_message_handler.go:27-36 | succeeds exactly when a room id can be extracted, and then asks the pool to join that room |
| WebsocketGameMessageHandler.GameMessageHandler.HandleTyping | websocket/game_message_handler.go:62-77 | succeeds exactly for a string text, which goes to the room as a typing notice |
| WebsocketGameMessageHandler.GameMessageHandler.HandleAnswer | websocket/game_message_handler.go:38-60 | refused with no change unless the room is playing and the answer is a string; a valid answer gives the correct-answer outcome, anything else the wrong-answer outcome |
| WebsocketGameMessageHandler.GameMessageHandler.HandleCorrectAnswer | websocket/game_message_handler.go:97-114 | the correct-answer outcome on the sender's room, with the store kept valid |
| WebsocketGameMessageHandler.GameMessageHandler.HandleWrongAnswer | websocket/game_message_handler.go:116-130 | the wrong-answer outcome on the sender's room, with the store kept valid |
| UsecaseGameWs.CorrectAnswerScores | usecase/game_ws_usecase.go:95-111 | a correct answer scores exactly one point for the answerer, changes no one else's points, no lives and no player, and leaves the drawn fragment in the room |
| UsecaseGameWs.WrongAnswerCostsALife | usecase/game_ws_usecase.go:113-134 | a wrong answer costs exactly the answerer one life, changes no one else's lives, no points and no player |
| UsecaseGameWs.JoinRoom | usecase/game_ws_usecase.go:23-41 | the client's room is set first; a room of 10 or more takes nothing more; otherwise the client goes to the register case and hears any positive time left |
| UsecaseGameWs.LeaveRoom | usecase/game_ws_usecase.go:43-45 | the client goes to the unregister case |
| UsecaseGameWs.BroadcastMessage | usecase/game_ws_usecase.go:47-51 | the stamped message goes to the fan-out loop |
| UsecaseGameWs.HandleAnswer | usecase/game_ws_usecase.go:75-135 | handled exactly for a running game and a string answer; a valid one stores a fresh 2 to 5 letter fragment and scores; a wrong one costs a life |
| UsecaseGameWs.HandleCorrectAnswer | usecase/game_ws_usecase.go:95-111 | the room's fragment is the drawn 2 to 5 letter string, and the correct-answer outcome holds |
| UsecaseGameWs.HandleWrongAnswer | usecase/game_ws_usecase.go:113-134 | the wrong-answer outcome holds |
| UsecaseGameWs.PlayCorrectAnswer | usecase/game_ws_usecase.go:95-111 | the sender's state gets the drawn fragment and the point; the stamped report is sent, then the next turn starts |
| UsecaseGameWs.PlayWrongAnswerFrom | usecase/game_ws_usecase.go:113-134 | the sender loses a life and the stamped report of the lives left is sent, then the end check and the turn rule run |
| UsecaseGameWs.PlayNextTurn | usecase/game_ws_usecase.go:111 | the engine passes the turn and the room stays well formed |
| UsecaseGameWs.PlayWrongAnswer | usecase/game_ws_usecase.go:128-134 | a game with at most one player alive ends; otherwise the turn passes on only when the answerer has 0 lives and holds it; else nothing changes |
| UsecaseGameWs.HandleNextTurn | usecase/game_ws_usecase.go:137-144 | an auto_start of true on a running game passes the turn; anything else changes nothing |
| UsecaseGameWs.HandleTyping | usecase/game_ws_usecase.go:149-161 | a room with a state relays the text, nil when absent, to the fan-out loop; without a state nothing happens |
| UsecaseGameWs.ReadStep | usecase/game_ws_usecase.go:53-167 | a join to room 0 is refused and one elsewhere moves the client; an answer and a timeout alike have the answer case's outcome, with the drawn fragment on a correct one; an auto_start of true on a running game passes the turn; leave goes to the unregister case; typing relays the text when the room has a state; unknown types change nothing; the pool stays valid |

## Left out

- **Concurrency.** Goroutines, mutexes and channels are not modelled. Each
  handler is one atomic step. Socket writes, channel sends, timers and
  goroutine broadcasts are effects appended to the outbox, and their later
  delivery is not modelled.
- **The register race.** Some iterations hand a client to the `Register`
  channel and immediately read the countdown. The order in which those two
  run is not modelled.
- **Time and randomness.** The current time and every random draw are
  inputs. The `fragment` and `newCharSet` parameters of the engines and
  use cases are not tied to `CharsetUtil.GenerateRandomWord`. The timer that fires is a separate call (`OnTurnTimeout`,
  `HandleCountdownEnd`).
- **Integer widths.** Go's `int` and `int64` are unbounded here, so an
  overflow of `Lives`, `Points` or `Round` is not modelled. Conversions to
  `uint` are modelled explicitly.
- **Strings.**
  - Go strings are modelled as character sequences; bytes and runes are
    not told apart.
  - `strings.ToLower` lowercases only the ASCII letters.
  - The fragment slice of `GenerateRandomWord` is taken as a character
    slice.
- **The JWT verifier** (bootstrap/util/jwt_token.go) is a function
  parameter of `AuthMiddleware.Authenticate`. `AuthMiddleware.ClaimsAssertable`
  is a precondition. It excludes a non-string `guest_id`, whose type
  assertion panics. It also excludes a float `user_id` at or below -1.0 or at
  or above 2^64: Go does not panic on that `uint(f)`, but it leaves the
  result implementation-defined. A float in (-1, 0) truncates to 0 and is
  modelled.
- **The word list file** is given as its lines. A missing file or a read
  error, which make `loadWords` panic, is not modelled. The `sync.Once` is
  not modelled either.
- **Panics and undefined conversions.** Some inputs are excluded by a
  precondition rather than modelled:
  - `WebsocketGamePoolHandlers.JoinPayloadOk` excludes a join payload of
    websocket/game_pool.go whose `room_id` is not a float64. That type
    assertion panics.
  - `WebsocketGamePoolHandlers.JoinPayloadOk`,
    `WebsocketGameMessageHandler.RoomIdConvertible` and
    `WebsocketGameManager.UintConvertible` exclude a float at or below
    -1.0 or at or above 2^64. Go does not panic on that `uint(f)`, but the
    result is implementation-defined. A float in (-1, 0) truncates toward
    zero to 0, which a `uint` holds, and is modelled as room 0.
- **A crash the code can reach: the nil use case of websocket/game_pool.go.**
  `GameUsecases` is a map from room id to an interface value. An absent
  room reads as a nil interface, and any method call on it panics the
  server. Nothing sets a client's `RoomID` before its first join, so it
  is the zero value 0. Room 0 has a use case only if someone joined it.
  In a pool where nobody has joined room 0, two inputs reach the call:
  - an answer before the first join: `handleAnswerMessage` calls
    `isGameActive` (websocket/game_pool.go:188);
  - a disconnect before any join: the deferred `LeaveRoom` runs
    `handleUnregister`, which calls `BroadcastToRoom`
    (websocket/game_pool.go:131).

  `WebsocketGamePoolHandlers.HandleAnswerMessage`,
  `WebsocketGamePoolHandlers.HandleUnregister` and
  `WebsocketGamePoolHandlers.ReadStep` require `c.roomId in
  p.usecaseRooms`. So this crash is outside the model rather than
  modelled.
- WebsocketGameManager.GameUsecase.OnTurnTimeout: modelled only while the
  room has a state, and on the state currently stored. In Go the turn
  timer's goroutine keeps the `*GameRoomState` its use case was created
  with (websocket/game_manager.go:41-46, 101-116). Here is how the code
  goes wrong:
  - `cleanupEmptyRoom` deletes that state when the room empties
    (websocket/game_manager.go:252-261);
  - a later join creates a new state and a new use case
    (websocket/game_pool.go:156-174);
  - the old armed timer still fires on the orphaned state. It lowers that
    state's lives and sends the old game's `turn_ended` and `next_turn`
    messages to the room's new clients, turn after turn.

  Sharing a state this way is not modelled.
- **The client's pool.** `c.Pool` is the pool the handler runs on; a
  client of another pool is not modelled.
- **Keepalive.** The ping/pong timer loop of websocket/client.go
  (`StartPingPong`, `HandlePong`) is an effect; only the replies are
  modelled.
- **The message-handler iteration.** Its pool's `JoinRoom` and
  `BroadcastMessage` are effects (`JoinRequested`, `BroadcastRequested`),
  because that pool is not part of the source.
- **handleRegister of websocket/game_pool.go** is not modelled: its whole
  body is commented out, so it does nothing. Clients of that pool are
  registered by `handleJoinMessage`.
- **The zero time.** `CountdownEndTime` of domain/model/game_pool_model.go
  is Go's zero time, modelled as 0.
- **Other features.** The chat pools, HTTP controllers, repositories and
  database code are outside the game core and not modelled.
- **WebsocketGameManager.GameUsecase.BroadcastMessage** is modelled
  corrected. It stamps the JSON form of the payload instead of panicking on
  the type assertion; see Findings. **WebsocketGamePoolHandlers.HandleTypingMessage**
  likewise relays the routable form of the typing notice.

**Behaviour of the code that is modelled as written:**

- The round counter never grows in a room where every player is alive
  (`TurnRules.AllAliveRoundStays`).
- The engines of websocket/game_engine.go and websocket/game_usecase.go
  broadcast a fresh fragment for each turn but never store it.
- `checkEndCondition` re-announces game over when called again on an ended
  game.
- In websocket/pool.go and usecase/game_ws_usecase.go, `JoinRoom` sets the
  client's room before the capacity check. A refused client can therefore
  still answer there, and a wrong answer creates a Lives entry of -1 for a
  non-player (`GameRoomStateModel.DecrementForStrangerBreaksKeys`).
- The capacity check of websocket/game_pool.go counts the joiner, who is
  already registered (`WebsocketGamePoolHandlers.AdmissionCountsTheJoiner`).
- usecase/game_ws_usecase.go treats a `timeout` message as an answer.
- In websocket/game_manager.go and websocket/game_message_handler.go a wrong
  answer costs no life.

## Findings

| source | as written | input that shows it | evidently intended | confidence | as-written member | corrected member |
|---|---|---|---|---|---|---|
| websocket/game_manager.go:364-368 | `BroadcastMessage` asserts that the payload is a `map[string]any`, but the only messages it is given are the typed answer responses of `processCorrectAnswer` and `processWrongAnswer`, so it panics on every answer | any answer in a running game of websocket/game_pool.go, e.g. `NewAnswerResponseMessage(true, "cat", 1, 7, "at", 1, 3)` | stamp the sender's user and room id into the JSON form of the payload and hand it to the fan-out loop, which routes it to the sender's room | not executed | WebsocketGameManager.AnswerBroadcastPanics | WebsocketGameManager.StampedAnswerIsDelivered |
| websocket/game_pool.go:223-224 | `handleTypingMessage` sends the typed `NewTypingMessage` to `Broadcast`, whose handler asserts a map payload with a `uint` room_id (line 143) and panics | any typing message with a string text in a room that has a state | relay the notice in a form the fan-out loop routes to the sender's room, with the same JSON | not executed | WebsocketGamePoolHandlers.TypingBroadcastPanics | WebsocketGamePoolHandlers.TypingRelay |
