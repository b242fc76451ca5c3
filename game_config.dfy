/** The game's tuning constants: the named configuration of
    websocket/game_config.go and the defaults at the top of
    websocket/game_pool.go (the two sets carry the same values). */
module GameConfig {

  // websocket/game_config.go
  const MaxRoomCapacity: int := 10
  const NanosPerSecond: int := 1_000_000_000
  const CountdownDuration: int := 2 * 60 * NanosPerSecond
  const RoundMaxTimeLimit: int := 20
  const MinTimeLimit: int := 5
  const InitialTimeLimit: int := 19
  const InitialLives: int := 3
  const InitialRound: int := 1
  const InitialPoints: int := 0
  const InitialTurnIndex: int := 0
  const MinAlivePlayersForGameEnd: int := 1
  const MaxScoreForComparison: int := -1
  const PingInterval: int := 30 * NanosPerSecond
  const PongTimeout: int := 10 * NanosPerSecond

  // websocket/game_pool.go
  const DefaultPlayerLives: int := 3
  const DefaultPlayerPoints: int := 0
  const DefaultMaxPlayers: int := 10
  const DefaultCountdownTime: int := 2 * 60 * NanosPerSecond
  const DefaultCountdownSecs: int := 120
  const DefaultGameTimeLimit: int := 19
  const DefaultRoundTimeLimit: int := 20
  const DefaultMinTimeLimit: int := 5
}
