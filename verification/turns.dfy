/** The turn state machine of one room: `startGame`, `startTurn`,
    `handleTurnResult` and `nextTurn` (server.js:95-115, server.js:170-235).
    Timers are not modelled here: the server step fires the delayed
    `startTurn` and the turn timeout as events. */
module Turns {
  import opened Wrappers
  import opened Model

  /** `startTurn` does something only while a game runs in a non-empty room. */
  predicate TurnCanStart(room: Room)
  {
    room.gameState.isGameRunning && |room.players| > 0
  }

  /** The id announced as the turn holder is that of the player at the index. */
  predicate TurnHolderAgrees(room: Room)
  {
    IndexInRange(room)
    && room.gameState.currentPlayerId == Some(room.players[room.gameState.currentPlayerIndex].id)
  }

  /** `startTurn`: announce the player at `currentPlayerIndex` and arm the
      turn timer. The source dereferences `players[currentPlayerIndex]`, so
      the index must denote a player whenever the turn can start. */
  function StartTurn(room: Room): (r: Room)
    requires TurnCanStart(room) ==> IndexInRange(room)
    ensures !TurnCanStart(room) ==> r == room
    ensures r.players == room.players
    ensures r.gameState.isGameRunning == room.gameState.isGameRunning
    ensures r.gameState.currentPlayerIndex == room.gameState.currentPlayerIndex
    ensures r.gameState.currentLetter == room.gameState.currentLetter
    ensures TurnCanStart(room) ==> TurnHolderAgrees(r) && r.gameState.isTimerRunning
  {
    if !TurnCanStart(room) then room
    else
      var current := room.players[room.gameState.currentPlayerIndex];
      room.(gameState := room.gameState.(currentPlayerId := Some(current.id), isTimerRunning := true))
  }

  /** Every score set to 0; ids, names and order kept. */
  function ResetScores(ps: seq<Player>): (r: seq<Player>)
    ensures SameRoster(r, ps)
    ensures forall i :: 0 <= i < |r| ==> r[i].score == 0
  {
    seq(|ps|, i requires 0 <= i < |ps| => ps[i].(score := 0))
  }

  /** The conditions under which `startGame` acts: the sender is the host,
      which is implicitly `players[0]`, and no game is running yet. */
  predicate StartAllowed(room: Room, sender: SocketId)
    requires |room.players| > 0
  {
    room.players[0].id == sender && !room.gameState.isGameRunning
  }

  /** `startGame` on an existing room. The source reads `players[0].id`, so
      the room must not be empty. */
  function StartGame(room: Room, sender: SocketId, draw: LetterDraw): (r: Room)
    requires |room.players| > 0
    ensures !StartAllowed(room, sender) ==> r == room
    ensures StartAllowed(room, sender) ==>
      && SameRoster(r.players, room.players)
      && (forall i :: 0 <= i < |r.players| ==> r.players[i].score == 0)
      && r.gameState.isGameRunning
      && r.gameState.currentPlayerIndex == 0
      && r.gameState.currentPlayerId == Some(room.players[0].id)
      && r.gameState.currentLetter in HindiConsonants
      && r.gameState.isTimerRunning
      && TurnHolderAgrees(r)
  {
    if room.players[0].id != sender || room.gameState.isGameRunning then room
    else
      var g := room.gameState.(
        isGameRunning := true,
        currentPlayerIndex := 0,
        currentPlayerId := Some(room.players[0].id),
        currentLetter := Letter(draw));
      StartTurn(Room(ResetScores(room.players), g))
  }

  /** `nextTurn`: with a running game and players left, pass the turn to the
      next player in cyclic order and stop the turn timer; otherwise replace
      the game state by the initial one. */
  function NextTurn(room: Room): (r: Room)
    ensures r.players == room.players
    ensures !TurnCanStart(room) ==> r.gameState == InitialGameState()
    ensures TurnCanStart(room) ==>
      && r.gameState.isGameRunning
      && !r.gameState.isTimerRunning
      && r.gameState.currentLetter == room.gameState.currentLetter
      && r.gameState.currentPlayerId == room.gameState.currentPlayerId
    ensures TurnCanStart(room) && room.gameState.currentPlayerIndex >= -1 ==>
      && IndexInRange(r)
      && r.gameState.currentPlayerIndex == (room.gameState.currentPlayerIndex + 1) % |room.players|
  {
    if !TurnCanStart(room) then room.(gameState := InitialGameState())
    else
      var i := JsRem(room.gameState.currentPlayerIndex + 1, |room.players|);
      room.(gameState := room.gameState.(isTimerRunning := false, currentPlayerIndex := i))
  }

  /** `players` with `delta` added to the score at `i`. */
  function AddToScore(ps: seq<Player>, i: nat, delta: int): (r: seq<Player>)
    requires i < |ps|
    ensures SameRoster(r, ps)
    ensures r[i].score == ps[i].score + delta
    ensures forall j :: 0 <= j < |r| && j != i ==> r[j] == ps[j]
  {
    ps[i := ps[i].(score := ps[i].score + delta)]
  }

  /** `handleTurnResult`: a correct answer earns the current player
      `PointsPerCorrect` points and draws a new letter; an incorrect one (the
      timeout) changes neither. Either way the turn then passes on. The
      source dereferences `players[currentPlayerIndex]` while a game runs. */
  function HandleTurnResult(room: Room, isCorrect: bool, draw: LetterDraw): (r: Room)
    requires room.gameState.isGameRunning ==> IndexInRange(room)
    ensures !room.gameState.isGameRunning ==> r == room
    ensures room.gameState.isGameRunning ==>
      var i := room.gameState.currentPlayerIndex;
      && SameRoster(r.players, room.players)
      && r.players[i].score == room.players[i].score + (if isCorrect then PointsPerCorrect else 0)
      && (forall j :: 0 <= j < |r.players| && j != i ==> r.players[j] == room.players[j])
      && (isCorrect ==> r.gameState.currentLetter in HindiConsonants)
      && (!isCorrect ==> r.gameState.currentLetter == room.gameState.currentLetter)
      && r.gameState.isGameRunning
      && !r.gameState.isTimerRunning
      && r.gameState.currentPlayerIndex == (i + 1) % |room.players|
  {
    if !room.gameState.isGameRunning then room
    else
      var i := room.gameState.currentPlayerIndex;
      var scored :=
        if isCorrect then
          Room(AddToScore(room.players, i, PointsPerCorrect), room.gameState.(currentLetter := Letter(draw)))
        else room;
      NextTurn(scored)
  }

  /** Score accounting: a turn result changes the total score by exactly
      the points it awards. */
  lemma {:induction false} TurnResultTotal(room: Room, isCorrect: bool, draw: LetterDraw)
    requires room.gameState.isGameRunning && IndexInRange(room)
    ensures TotalScore(HandleTurnResult(room, isCorrect, draw).players)
         == TotalScore(room.players) + (if isCorrect then PointsPerCorrect else 0)
  {
    var i := room.gameState.currentPlayerIndex;
    if isCorrect {
      AddToScoreTotal(room.players, i, PointsPerCorrect);
    }
  }

  /** Adding `delta` to one score adds `delta` to the total. */
  lemma {:induction false} AddToScoreTotal(ps: seq<Player>, i: nat, delta: int)
    requires i < |ps|
    ensures TotalScore(AddToScore(ps, i, delta)) == TotalScore(ps) + delta
    decreases |ps|
  {
    var r := AddToScore(ps, i, delta);
    var n := |ps|;
    assert r[..n - 1] == if i == n - 1 then ps[..n - 1] else AddToScore(ps[..n - 1], i, delta);
    if i < n - 1 {
      AddToScoreTotal(ps[..n - 1], i, delta);
    }
  }
}
