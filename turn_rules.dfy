/** The rules every iteration of the turn engine shares
    (websocket/game_engine.go, websocket/game_manager.go,
    websocket/game_usecase.go, usecase/game_usecase.go): the walk to the next
    player with lives, the round counter, the time limit, the end condition
    with its winner, and the final score table. The loops the four
    iterations have in common are written here once as methods, each proved
    against the specification function beside it. */
module TurnRules {
  import opened GoValues
  import opened GoStrings
  import opened GameRoomStateModel
  import GameConfig

  // ----- Alive players and the end condition -----

  /** The users in `keys` whose Lives entry is positive. */
  function AliveAmong(lives: map<UserId, int>, keys: set<UserId>): set<UserId>
    requires keys <= lives.Keys
  {
    set u | u in keys && lives[u] > 0
  }

  function AliveSet(lives: map<UserId, int>): set<UserId> {
    AliveAmong(lives, lives.Keys)
  }

  function AliveCount(lives: map<UserId, int>): nat {
    |AliveSet(lives)|
  }

  /** `aliveCount <= MinAlivePlayersForGameEnd`: at most one entry of Lives
      is positive. */
  predicate GameOverCondition(lives: map<UserId, int>) {
    AliveCount(lives) <= GameConfig.MinAlivePlayersForGameEnd
  }

  /** A user with a Lives entry whose score beats the initial
      `MaxScoreForComparison` of -1. */
  predicate HasScorer(lives: map<UserId, int>, points: map<UserId, int>) {
    exists u :: u in lives && GetOr0(points, u) > GameConfig.MaxScoreForComparison
  }

  /** The highest scorer the scan over Lives can report: some key of Lives
      with maximal points (which one depends on Go's map order), or 0 when
      no key scores above -1. */
  predicate IsTopScorer(lives: map<UserId, int>, points: map<UserId, int>, w: UserId) {
    if HasScorer(lives, points) then
      && w in lives
      && (forall u :: u in lives ==> GetOr0(points, u) <= GetOr0(points, w))
    else
      w == 0
  }

  /** The winner `checkEndCondition` may record: the sole survivor when
      exactly one player is alive, otherwise a top scorer. */
  predicate ValidWinner(lives: map<UserId, int>, points: map<UserId, int>, w: UserId) {
    if AliveCount(lives) == 1 then AliveSet(lives) == {w} else IsTopScorer(lives, points, w)
  }

  lemma SingletonOf<T>(s: set<T>, x: T)
    requires |s| == 1 && x in s
    ensures s == {x}
  {
    assert |s - {x}| == 0;
  }

  /** One step of the scan `for uid, life := range Lives`. */
  lemma AliveAmongStep(lives: map<UserId, int>, done: set<UserId>, u: UserId)
    requires done <= lives.Keys && u in lives && u !in done
    ensures lives[u] > 0 ==> AliveAmong(lives, done + {u}) == AliveAmong(lives, done) + {u}
    ensures lives[u] > 0 ==> |AliveAmong(lives, done + {u})| == |AliveAmong(lives, done)| + 1
    ensures lives[u] <= 0 ==> AliveAmong(lives, done + {u}) == AliveAmong(lives, done)
  {
    if lives[u] > 0 {
      assert AliveAmong(lives, done + {u}) == AliveAmong(lives, done) + {u};
    } else {
      assert AliveAmong(lives, done + {u}) == AliveAmong(lives, done);
    }
  }

  /** `countAlivePlayers`: count the positive entries of Lives. */
  method CountAlive(lives: map<UserId, int>) returns (count: nat)
    ensures count == AliveCount(lives)
  {
    count := 0;
    var todo := lives.Keys;
    ghost var done: set<UserId> := {};
    while todo != {}
      invariant todo + done == lives.Keys && todo !! done
      invariant count == |AliveAmong(lives, done)|
      decreases |todo|
    {
      var u :| u in todo;
      AliveAmongStep(lives, done, u);
      if lives[u] > 0 {
        count := count + 1;
      }
      todo := todo - {u};
      done := done + {u};
    }
  }

  /** What the score half of the scan knows after visiting `done`: the
      running maximum bounds every visited score, and `highest` is a visited
      key holding it (or 0 while nobody beat -1). */
  ghost predicate ScanMax(points: map<UserId, int>, done: set<UserId>, maxScore: int, highest: UserId) {
    && maxScore >= GameConfig.MaxScoreForComparison
    && (forall v :: v in done ==> GetOr0(points, v) <= maxScore)
    && (maxScore > GameConfig.MaxScoreForComparison ==> highest in done && GetOr0(points, highest) == maxScore)
    && (maxScore == GameConfig.MaxScoreForComparison ==> highest == 0)
  }

  lemma ScanMaxStep(points: map<UserId, int>, done: set<UserId>, maxScore: int, highest: UserId, u: UserId)
    requires ScanMax(points, done, maxScore, highest)
    ensures GetOr0(points, u) > maxScore ==> ScanMax(points, done + {u}, GetOr0(points, u), u)
    ensures GetOr0(points, u) <= maxScore ==> ScanMax(points, done + {u}, maxScore, highest)
  {
  }

  lemma ScanMaxDone(lives: map<UserId, int>, points: map<UserId, int>, maxScore: int, highest: UserId)
    requires ScanMax(points, lives.Keys, maxScore, highest)
    ensures IsTopScorer(lives, points, highest)
  {
    if HasScorer(lives, points) {
      var u :| u in lives && GetOr0(points, u) > GameConfig.MaxScoreForComparison;
      assert GetOr0(points, u) <= maxScore;
    }
  }

  /** What the counting half of the scan knows after visiting `done`. */
  ghost predicate ScanAlive(lives: map<UserId, int>, done: set<UserId>, count: nat, lastAlive: UserId)
    requires done <= lives.Keys
  {
    count == |AliveAmong(lives, done)| && (count >= 1 ==> lastAlive in AliveAmong(lives, done))
  }

  lemma ScanAliveStep(lives: map<UserId, int>, done: set<UserId>, count: nat, lastAlive: UserId, u: UserId)
    requires done <= lives.Keys && u in lives && u !in done
    requires ScanAlive(lives, done, count, lastAlive)
    ensures lives[u] > 0 ==> ScanAlive(lives, done + {u}, count + 1, u)
    ensures lives[u] <= 0 ==> ScanAlive(lives, done + {u}, count, lastAlive)
  {
    AliveAmongStep(lives, done, u);
  }

  lemma ScanAliveDone(lives: map<UserId, int>, count: nat, lastAlive: UserId)
    requires ScanAlive(lives, lives.Keys, count, lastAlive)
    ensures count == AliveCount(lives)
    ensures count == 1 ==> AliveSet(lives) == {lastAlive}
  {
    if count == 1 {
      SingletonOf(AliveSet(lives), lastAlive);
    }
  }

  /** One entry of the scan of `checkEndCondition`: count it when alive,
      and take it as the highest scorer when it beats the maximum so far. */
  method ScanEntry(lives: map<UserId, int>, points: map<UserId, int>, ghost done: set<UserId>,
                   aliveCount: nat, lastAlive: UserId, maxScore: int, highest: UserId, uid: UserId)
    returns (aliveCount': nat, lastAlive': UserId, maxScore': int, highest': UserId)
    requires done <= lives.Keys && uid in lives && uid !in done
    requires ScanAlive(lives, done, aliveCount, lastAlive)
    requires ScanMax(points, done, maxScore, highest)
    ensures ScanAlive(lives, done + {uid}, aliveCount', lastAlive')
    ensures ScanMax(points, done + {uid}, maxScore', highest')
  {
    ScanAliveStep(lives, done, aliveCount, lastAlive, uid);
    ScanMaxStep(points, done, maxScore, highest, uid);
    aliveCount', lastAlive', maxScore', highest' := aliveCount, lastAlive, maxScore, highest;
    var life := lives[uid];
    if life > 0 {
      aliveCount' := aliveCount + 1;
      lastAlive' := uid;
    }
    if GetOr0(points, uid) > maxScore {
      maxScore' := GetOr0(points, uid);
      highest' := uid;
    }
  }

  /** The scan of `checkEndCondition`: over Lives in some order, count the
      alive entries, remember the last alive one, and keep the first key
      seen with the highest points. */
  method ScanLives(lives: map<UserId, int>, points: map<UserId, int>)
    returns (aliveCount: nat, lastAlive: UserId, highest: UserId)
    ensures aliveCount == AliveCount(lives)
    ensures aliveCount == 1 ==> AliveSet(lives) == {lastAlive}
    ensures IsTopScorer(lives, points, highest)
  {
    aliveCount, lastAlive, highest := 0, 0, 0;
    var maxScore := GameConfig.MaxScoreForComparison;
    var todo := lives.Keys;
    ghost var done: set<UserId> := {};
    while todo != {}
      invariant todo + done == lives.Keys && todo !! done
      invariant ScanAlive(lives, done, aliveCount, lastAlive)
      invariant ScanMax(points, done, maxScore, highest)
      decreases |todo|
    {
      var uid :| uid in todo;
      aliveCount, lastAlive, maxScore, highest := ScanEntry(lives, points, done, aliveCount, lastAlive, maxScore, highest, uid);
      todo := todo - {uid};
      done := done + {uid};
    }
    ScanAliveDone(lives, aliveCount, lastAlive);
    ScanMaxDone(lives, points, maxScore, highest);
  }

  /** The winner `checkEndCondition` records once the game is over. */
  function WinnerOf(aliveCount: nat, lastAlive: UserId, highest: UserId): UserId {
    if aliveCount == 1 then lastAlive else highest
  }

  lemma WinnerOfIsValid(lives: map<UserId, int>, points: map<UserId, int>,
                        aliveCount: nat, lastAlive: UserId, highest: UserId)
    requires aliveCount == AliveCount(lives)
    requires aliveCount == 1 ==> AliveSet(lives) == {lastAlive}
    requires IsTopScorer(lives, points, highest)
    ensures ValidWinner(lives, points, WinnerOf(aliveCount, lastAlive, highest))
  {
  }

  /** The state `endGame` leaves: the game stops with that winner. */
  function Ended(s: GameRoomState, winner: UserId): GameRoomState {
    s.(started := false, winnerId := winner)
  }

  /** `t` is a state checkEndCondition may leave when it ends the game in `s`. */
  predicate EndedAs(s: GameRoomState, t: GameRoomState) {
    t == Ended(s, t.winnerId) && ValidWinner(s.lives, s.points, t.winnerId)
  }

  // ----- The walk to the next player -----

  /** The slot `k` steps after `start`, going round `n` slots at most
      once. */
  function SlotAfter(n: nat, start: nat, k: nat): nat
    requires start < n && k <= n
  {
    if start + k < n then start + k else start + k - n
  }

  /** The player in the slot `k` steps after `start` has no lives left. */
  predicate DeadAfter(players: seq<UserId>, lives: map<UserId, int>, start: nat, k: nat)
    requires start < |players| && k <= |players|
  {
    GetOr0(lives, players[SlotAfter(|players|, start, k)]) <= 0
  }

  /** The number of steps, from `j` on and at most `|players|`, to the first
      slot after `start` whose player is alive. */
  function FirstAliveStep(players: seq<UserId>, lives: map<UserId, int>, start: nat, j: nat): (r: Option<nat>)
    requires start < |players| && 1 <= j
    ensures r.Some? ==> j <= r.value <= |players|
    ensures r.Some? ==> !DeadAfter(players, lives, start, r.value)
    ensures r.Some? ==> forall k :: j <= k < r.value ==> DeadAfter(players, lives, start, k)
    ensures r.None? ==> forall k :: j <= k <= |players| ==> DeadAfter(players, lives, start, k)
    decreases |players| + 1 - j
  {
    if j > |players| then None
    else if !DeadAfter(players, lives, start, j) then Some(j)
    else FirstAliveStep(players, lives, start, j + 1)
  }

  /** The round after the walk lands on `index`: one more only when the
      walk did not move forward and did not start from the last slot. */
  function RoundAfter(start: int, index: int, n: int, round: int): int {
    if index <= start && start != n - 1 then round + 1 else round
  }

  datatype TurnChoice = Chosen(index: nat, round: int, player: UserId) | NoneAlive

  /** Where the walk of `StartNextTurn` stops, and the round it leaves. */
  function NextTurnChoice(players: seq<UserId>, lives: map<UserId, int>, turnIndex: int, round: int): TurnChoice
    requires 0 <= turnIndex < |players|
  {
    match FirstAliveStep(players, lives, turnIndex, 1)
    case None => NoneAlive
    case Some(j) =>
      var index := SlotAfter(|players|, turnIndex, j);
      Chosen(index, RoundAfter(turnIndex, index, |players|, round), players[index])
  }

  /** Go's `(idx + 1) % n` for an index in range. */
  lemma ModStep(x: int, n: int)
    requires 0 < x <= n
    ensures x % n == (if x < n then x else 0)
  {
  }

  /** `StartNextTurn`'s loop: step the turn index round the players at most
      `len(Players)` times, stop at the first player with lives, and count
      the round at most once. */
  method WalkTurn(players: seq<UserId>, lives: map<UserId, int>, turnIndex: int, round: int)
    returns (index: int, newRound: int, selected: Option<UserId>)
    requires 0 <= turnIndex < |players|
    ensures NextTurnChoice(players, lives, turnIndex, round).Chosen? ==>
      var c := NextTurnChoice(players, lives, turnIndex, round);
      index == c.index && newRound == c.round && selected == Some(c.player)
    ensures NextTurnChoice(players, lives, turnIndex, round).NoneAlive? ==>
      index == turnIndex && newRound == round && selected == None
  {
    var n := |players|;
    var originalTurnIndex := turnIndex;
    var roundIncremented := false;
    index, newRound, selected := turnIndex, round, None;
    var i := 0;
    while i < n
      invariant 0 <= i <= n
      invariant index == SlotAfter(n, turnIndex, i)
      invariant FirstAliveStep(players, lives, turnIndex, 1) == FirstAliveStep(players, lives, turnIndex, i + 1)
      invariant newRound == round && !roundIncremented && selected == None
    {
      ModStep(index + 1, n);
      index := (index + 1) % n;
      var uid := players[index];
      if GetOr0(lives, uid) > 0 {
        if !roundIncremented && index <= originalTurnIndex && originalTurnIndex != n - 1 {
          newRound := newRound + 1;
          roundIncremented := true;
        }
        selected := Some(uid);
        break;
      }
      i := i + 1;
    }
  }

  /** The time limit of a turn in round `round`: `max(20 - round, 5)`. */
  function TimeLimitFor(round: int): (t: int)
    ensures t >= GameConfig.MinTimeLimit
    ensures round <= GameConfig.RoundMaxTimeLimit - GameConfig.MinTimeLimit ==>
              t == GameConfig.RoundMaxTimeLimit - round
    ensures round >= GameConfig.RoundMaxTimeLimit - GameConfig.MinTimeLimit ==>
              t == GameConfig.MinTimeLimit
  {
    var limit := GameConfig.RoundMaxTimeLimit - round;
    if limit < GameConfig.MinTimeLimit then GameConfig.MinTimeLimit else limit
  }

  /** The state after the walk of `StartNextTurn` and the `startTurn` it
      ends in (only the time limit changes there); unchanged when nobody in
      `players` is alive. */
  function Advanced(s: GameRoomState): GameRoomState
    requires WellFormed(s)
  {
    match NextTurnChoice(s.players, s.lives, s.turnIndex, s.round)
    case NoneAlive => s
    case Chosen(index, round, _) => s.(turnIndex := index, round := round, timeLimit := TimeLimitFor(round))
  }

  /** The state `StartNextTurn` leaves from `s`, given the winner the end
      check picks: nothing changes when the game is not running, the game
      ends when at most one player is alive, and otherwise the turn walks
      on. */
  function AfterNextTurn(s: GameRoomState, winner: UserId): GameRoomState
    requires WellFormed(s)
  {
    if !s.started then s
    else if GameOverCondition(s.lives) then Ended(s, winner)
    else Advanced(s)
  }

  // ----- What the walk guarantees -----

  /** The chosen slot is in range and holds an alive player; every slot the
      walk stepped over before it holds a player with no lives; when nobody
      is chosen, no player has lives. */
  lemma {:induction false} ChoiceIsNextAlive(players: seq<UserId>, lives: map<UserId, int>, turnIndex: int, round: int)
    requires 0 <= turnIndex < |players|
    ensures var c := NextTurnChoice(players, lives, turnIndex, round);
      c.Chosen? ==>
        && 0 <= c.index < |players| && c.player == players[c.index]
        && GetOr0(lives, c.player) > 0
        && exists j :: 1 <= j <= |players| && c.index == SlotAfter(|players|, turnIndex, j)
                       && forall k :: 1 <= k < j ==> DeadAfter(players, lives, turnIndex, k)
    ensures NextTurnChoice(players, lives, turnIndex, round).NoneAlive? ==>
      forall i :: 0 <= i < |players| ==> GetOr0(lives, players[i]) <= 0
  {
    var n := |players|;
    var c := NextTurnChoice(players, lives, turnIndex, round);
    if c.Chosen? {
      var j := FirstAliveStep(players, lives, turnIndex, 1).value;
      assert c.index == SlotAfter(n, turnIndex, j);
    } else {
      forall i | 0 <= i < n ensures GetOr0(lives, players[i]) <= 0 {
        var k := if i > turnIndex then i - turnIndex else i - turnIndex + n;
        assert DeadAfter(players, lives, turnIndex, k);
      }
    }
  }

  /** The round grows by at most one, and exactly when the walk did not
      move forward from a start other than the last slot. */
  lemma RoundRule(players: seq<UserId>, lives: map<UserId, int>, turnIndex: int, round: int)
    requires 0 <= turnIndex < |players|
    ensures var c := NextTurnChoice(players, lives, turnIndex, round);
      c.Chosen? ==>
        && (c.round == round || c.round == round + 1)
        && (c.round == round + 1 <==> c.index <= turnIndex && turnIndex != |players| - 1)
  {
  }

  /** While two or more players are alive, and only players hold lives,
      the walk always finds a player. */
  lemma NotOverFindsPlayer(s: GameRoomState)
    requires WellFormed(s) && !GameOverCondition(s.lives)
    ensures NextTurnChoice(s.players, s.lives, s.turnIndex, s.round).Chosen?
  {
    var u :| u in AliveSet(s.lives);
    assert u in s.players;
    var i :| 0 <= i < |s.players| && s.players[i] == u;
    ChoiceIsNextAlive(s.players, s.lives, s.turnIndex, s.round);
  }

  /** The walk keeps the state well formed, moves only turn index, round
      and time limit, and the time limit is `max(20 - round, 5)` of the new
      round. */
  lemma AdvancedKeeps(s: GameRoomState)
    requires WellFormed(s)
    ensures WellFormed(Advanced(s))
    ensures Advanced(s) == s.(turnIndex := Advanced(s).turnIndex, round := Advanced(s).round,
                              timeLimit := Advanced(s).timeLimit)
    ensures Advanced(s) != s ==> Advanced(s).timeLimit == TimeLimitFor(Advanced(s).round)
    ensures KeysAgree(s) ==> KeysAgree(Advanced(s))
  {
  }

  /** What one call of `StartNextTurn` guarantees: the state stays well
      formed and in key agreement; a stopped game is left alone; an ending
      game keeps its turn index and changes only Started and WinnerID; and
      otherwise the turn lands on an alive player, the round grows by at
      most one and the time limit is the clamped one of the new round. */
  lemma AfterNextTurnKeeps(s: GameRoomState, winner: UserId)
    requires WellFormed(s)
    ensures WellFormed(AfterNextTurn(s, winner))
    ensures KeysAgree(s) ==> KeysAgree(AfterNextTurn(s, winner))
    ensures !s.started ==> AfterNextTurn(s, winner) == s
    ensures s.started && GameOverCondition(s.lives) ==>
      AfterNextTurn(s, winner) == s.(started := false, winnerId := winner)
    ensures s.started && !GameOverCondition(s.lives) ==>
      var t := AfterNextTurn(s, winner);
      && t.started && t.players == s.players && t.lives == s.lives && t.points == s.points
      && Alive(t, t.players[t.turnIndex])
      && (t.round == s.round || t.round == s.round + 1)
      && t.timeLimit == TimeLimitFor(t.round) && t.timeLimit >= GameConfig.MinTimeLimit
  {
    AdvancedKeeps(s);
    if s.started && !GameOverCondition(s.lives) {
      NotOverFindsPlayer(s);
      ChoiceIsNextAlive(s.players, s.lives, s.turnIndex, s.round);
      RoundRule(s.players, s.lives, s.turnIndex, s.round);
    }
  }

  /** `StartNextTurn` never changes who plays, their lives or their
      points. */
  lemma AfterNextTurnKeepsScores(s: GameRoomState, winner: UserId)
    requires WellFormed(s)
    ensures AfterNextTurn(s, winner).players == s.players
    ensures AfterNextTurn(s, winner).lives == s.lives
    ensures AfterNextTurn(s, winner).points == s.points
    ensures AfterNextTurn(s, winner).roomId == s.roomId
  {
    AdvancedKeeps(s);
  }

  /** In a room where every player is alive the walk always moves to the
      next slot or wraps from the last slot to the first, so the round
      never grows. */
  lemma {:induction false} AllAliveRoundStays(players: seq<UserId>, lives: map<UserId, int>, turnIndex: int, round: int)
    requires 0 <= turnIndex < |players|
    requires forall i :: 0 <= i < |players| ==> GetOr0(lives, players[i]) > 0
    ensures NextTurnChoice(players, lives, turnIndex, round).Chosen?
    ensures NextTurnChoice(players, lives, turnIndex, round).round == round
  {
    assert !DeadAfter(players, lives, turnIndex, 1);
  }

  /** With a single alive player who holds the turn, the walk comes back to
      them and the round grows unless they sit in the last slot. */
  lemma {:induction false} LoneSurvivorWraps(players: seq<UserId>, lives: map<UserId, int>, turnIndex: int, round: int)
    requires 0 <= turnIndex < |players|
    requires GetOr0(lives, players[turnIndex]) > 0
    requires forall i :: 0 <= i < |players| && i != turnIndex ==> GetOr0(lives, players[i]) <= 0
    ensures NextTurnChoice(players, lives, turnIndex, round).Chosen?
    ensures NextTurnChoice(players, lives, turnIndex, round).index == turnIndex
    ensures NextTurnChoice(players, lives, turnIndex, round).round ==
            (if turnIndex == |players| - 1 then round else round + 1)
  {
    var n := |players|;
    ChoiceIsNextAlive(players, lives, turnIndex, round);
    var c := NextTurnChoice(players, lives, turnIndex, round);
    assert !DeadAfter(players, lives, turnIndex, n);
  }

  // ----- Timeouts -----

  /** `Lives[uid]--`: a missing entry reads as 0 and becomes -1. */
  function Decremented(s: GameRoomState, u: UserId): GameRoomState {
    s.(lives := s.lives[u := GetOr0(s.lives, u) - 1])
  }

  /** A decrement changes only that user's lives, by exactly one, and keeps
      both invariants when the user is a player. */
  lemma DecrementedKeeps(s: GameRoomState, u: UserId)
    ensures Decremented(s, u).lives[u] == GetOr0(s.lives, u) - 1
    ensures forall v :: v != u ==> GetOr0(Decremented(s, u).lives, v) == GetOr0(s.lives, v)
    ensures WellFormed(s) ==> WellFormed(Decremented(s, u))
    ensures KeysAgree(s) && u in s.players ==> KeysAgree(Decremented(s, u))
  {
  }

  // ----- Final scores -----

  /** `fmt.Sprintf("user_%d", uid)`. */
  function UserKey(u: UserId): string {
    "user_" + NatToDecimal(u)
  }

  /** Different users get different keys. */
  lemma UserKeyInjective()
    ensures forall a, b :: UserKey(a) == UserKey(b) ==> a == b
  {
    forall a, b | UserKey(a) == UserKey(b) ensures a == b {
      assert UserKey(a)[5..] == NatToDecimal(a);
      assert UserKey(b)[5..] == NatToDecimal(b);
      NatToDecimalInjective(a, b);
    }
  }

  /** `{"points": Points[uid], "lives": Lives[uid]}`. */
  function ScoreEntry(points: map<UserId, int>, lives: map<UserId, int>, u: UserId): Value
    requires u in points
  {
    Object(map["points" := Int(points[u]), "lives" := Int(GetOr0(lives, u))])
  }

  /** The score table over the users in `keys`. */
  function ScoresOver(points: map<UserId, int>, lives: map<UserId, int>, keys: set<UserId>): map<string, Value>
    requires keys <= points.Keys
  {
    UserKeyInjective();
    map u | u in keys :: UserKey(u) := ScoreEntry(points, lives, u)
  }

  /** `getFinalScores`: "user_<id>" to that user's points and lives, for
      every key of Points. */
  function FinalScores(points: map<UserId, int>, lives: map<UserId, int>): map<string, Value> {
    ScoresOver(points, lives, points.Keys)
  }

  /** Adding one user adds exactly that user's entry. */
  lemma ScoresOverAdd(points: map<UserId, int>, lives: map<UserId, int>, done: set<UserId>, u: UserId)
    requires done <= points.Keys && u in points && u !in done
    ensures ScoresOver(points, lives, done + {u})
         == ScoresOver(points, lives, done)[UserKey(u) := ScoreEntry(points, lives, u)]
  {
    UserKeyInjective();
    var a := ScoresOver(points, lives, done + {u});
    var b := ScoresOver(points, lives, done)[UserKey(u) := ScoreEntry(points, lives, u)];
    assert a.Keys == b.Keys;
    forall k | k in a ensures a[k] == b[k] {
      var v :| v in done + {u} && k == UserKey(v);
    }
  }

  lemma {:induction false} ScoresOverSize(points: map<UserId, int>, lives: map<UserId, int>, keys: set<UserId>)
    requires keys <= points.Keys
    ensures |ScoresOver(points, lives, keys)| == |keys|
    decreases |keys|
  {
    if keys != {} {
      var x :| x in keys;
      ScoresOverSize(points, lives, keys - {x});
      ScoresOverAdd(points, lives, keys - {x}, x);
      UserKeyInjective();
      assert keys - {x} + {x} == keys;
      assert UserKey(x) !in ScoresOver(points, lives, keys - {x});
    }
  }

  /** The table has exactly one "user_<id>" entry per key of Points, holding
      that user's points and lives, and no other entry. */
  lemma FinalScoresShape(points: map<UserId, int>, lives: map<UserId, int>)
    ensures forall u :: u in points ==>
      (UserKey(u) in FinalScores(points, lives) && FinalScores(points, lives)[UserKey(u)] == ScoreEntry(points, lives, u))
    ensures forall k :: k in FinalScores(points, lives) ==> exists u :: u in points && k == UserKey(u)
  {
    UserKeyInjective();
  }

  /** No two users share an entry, so the table has one entry per key of
      Points. */
  lemma FinalScoresSize(points: map<UserId, int>, lives: map<UserId, int>)
    ensures |FinalScores(points, lives)| == |points|
  {
    ScoresOverSize(points, lives, points.Keys);
  }

  /** `getFinalScores`' loop over Points. */
  method BuildFinalScores(points: map<UserId, int>, lives: map<UserId, int>) returns (scores: map<string, Value>)
    ensures scores == FinalScores(points, lives)
  {
    scores := map[];
    var todo := points.Keys;
    ghost var done: set<UserId> := {};
    while todo != {}
      invariant todo + done == points.Keys && todo !! done
      invariant scores == ScoresOver(points, lives, done)
      decreases |todo|
    {
      var uid :| uid in todo;
      ScoresOverAdd(points, lives, done, uid);
      scores := scores[UserKey(uid) := ScoreEntry(points, lives, uid)];
      todo := todo - {uid};
      done := done + {uid};
    }
  }
}
