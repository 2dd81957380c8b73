/** Four defects of the server, each shown on the code as written and
    contrasted with the corrected server: two in the disconnect handler
    (server.js:123-135), one in the room lookup of `joinRoom`
    (server.js:51-55), and the emits of a pending timer handle
    (server.js:81 and server.js:148). */
module Findings {
  import opened Wrappers
  import opened Model
  import opened Turns
  import opened Departure
  import opened Registry
  import opened Server

  /** Players and game states shared by the examples below. */
  const A: Player := Player("a", "A", 0)
  const B: Player := Player("b", "B", 0)
  const C: Player := Player("c", "C", 0)
  const Running: GameState := GameState(true, 0, Some("a"), Letter(0), true)
  const BTurn: GameState := Running.(currentPlayerIndex := 1, currentPlayerId := Some("b"))

  /** As written, a departure below the current index leaves the index
      unchanged, so when the turn holder was last in the list the index now
      lies past its end. */
  lemma {:induction false} LowerLeaveDanglesAsWritten(room: Room, sock: SocketId)
    requires room.gameState.isGameRunning && IndexInRange(room)
    requires 0 <= FindIndex(room.players, sock) < room.gameState.currentPlayerIndex
    requires room.gameState.currentPlayerIndex == |room.players| - 1
    ensures Leave(room, sock).gameState.isGameRunning
    ensures !IndexInRange(Leave(room, sock))
  {
  }

  /** As written, when the turn holder at `p` leaves a room of three or more
      players, the turn goes to the player two places after them in the old
      order: the player who followed them is skipped. */
  lemma {:induction false} HolderLeavesAsWritten(room: Room, sock: SocketId)
    requires room.gameState.isGameRunning && IndexInRange(room)
    requires FindIndex(room.players, sock) == room.gameState.currentPlayerIndex
    requires |room.players| >= 3
    ensures var r := Leave(room, sock);
      var p := room.gameState.currentPlayerIndex;
      var n := |room.players|;
      && IndexInRange(r)
      && r.players[r.gameState.currentPlayerIndex] == room.players[(p + 2) % n]
      && (p + 2) % n != (p + 1) % n
  {
    var p := room.gameState.currentPlayerIndex;
    var n := |room.players|;
    var m := n - 1;
    var ps := RemoveAt(room.players, p);
    var r := Leave(room, sock);
    var k := r.gameState.currentPlayerIndex;
    if p < m - 1 {
      assert k == (p + 1) % m;
      SmallMod(p + 1, m);
      SmallMod(p + 2, n);
      SmallMod(p + 1, n);
      assert ps[p + 1] == room.players[p + 2];
    } else if p == m - 1 {
      assert k == (p + 1) % m;
      SelfMod(m);
      SelfMod(n);
      SmallMod(p + 1, n);
      assert ps[0] == room.players[0];
    } else {
      assert k == 1 % m;
      SmallMod(1, m);
      WrapMod(n, 1);
      WrapMod(n, 0);
      assert ps[1] == room.players[1];
    }
  }

  /** Three players, the one in the middle holds the turn and leaves: as
      written the turn goes back to the first player, while the corrected
      handler gives it to the third, who followed the leaver. */
  lemma SkipExample()
    ensures var room := Room([A, B, C], BTurn);
      && Leave(room, "b").players == [A, C]
      && Leave(room, "b").gameState.currentPlayerIndex == 0
      && LeaveCorrected(room, "b").players == [A, C]
      && LeaveCorrected(room, "b").gameState.currentPlayerIndex == 1
  {
    assert FindIndex([A, B, C], "b") == 1;
    assert RemoveAt([A, B, C], 1) == [A, C];
  }

  const Code: RoomCode := "K7QZ"

  /** Two players, A hosting. A's turn times out, and within the three
      seconds before the delayed `startTurn` (server.js:234) A disconnects:
      the index still says 1 in a one-player list, and the delayed
      `startTurn` then reads a missing player at server.js:176-177. No turn
      timer is pending when A leaves, so the emit at server.js:148 is
      harmless. */
  const DanglingTrace: seq<Event> := [
    Create("a", "A", [Code]),
    Join("b", "B", Code),
    Start("a", 0),
    TurnTimeout(Code),
    Disconnect("a"),
    TurnDelayElapsed(Code)
  ]

  /** The game state between A's timeout and B's turn. */
  const Gap: GameState := Running.(currentPlayerIndex := 1, isTimerRunning := false)

  /** The states the trace passes through. */
  const S1: State := State(map[Code := Room([A], InitialGameState())], map["a" := Code])
  const S2: State := State(map[Code := Room([A, B], InitialGameState())], map["a" := Code, "b" := Code])
  const S3: State := S2.(rooms := map[Code := Room([A, B], Running)])
  const S4: State := S2.(rooms := map[Code := Room([A, B], Gap)])
  const S5: State := State(map[Code := Room([B], Gap)], map["b" := Code])

  lemma TraceCreate()
    ensures Step(Boot, DanglingTrace[0], AsWritten) == Next(S1)
  {
  }

  lemma TraceJoin()
    ensures Step(S1, DanglingTrace[1], AsWritten) == Next(S2)
  {
    assert [A] + [B] == [A, B];
    assert AddPlayer(S1.rooms, Code, "b", "B") == S2.rooms;
  }

  lemma TraceStart()
    ensures Step(S2, DanglingTrace[2], AsWritten) == Next(S3)
  {
    assert JoinedRoom(S2, "a") == Some(Code);
    assert ResetScores([A, B]) == [A, B];
    assert StartGame(Room([A, B], InitialGameState()), "a", 0) == Room([A, B], Running);
  }

  lemma TraceTimeout()
    ensures Step(S3, DanglingTrace[3], AsWritten) == Next(S4)
  {
  }

  lemma HostFound()
    ensures JoinedRoom(S4, "a") == Some(Code)
    ensures FindIndex([A, B], "a") == 0
  {
  }

  lemma HostSpliced()
    ensures Leave(Room([A, B], Gap), "a") == Room([B], Gap)
  {
    HostFound();
    assert RemoveAt([A, B], 0) == [B];
  }

  lemma HostForgotten()
    ensures S4.roomOf - {"a"} == S5.roomOf
  {
  }

  lemma TraceHostLeaves()
    ensures Step(S4, DanglingTrace[4], AsWritten) == Next(S5)
  {
    HostFound();
    HostSpliced();
    HostForgotten();
  }

  lemma TraceDelayedStart()
    ensures Step(S5, DanglingTrace[5], AsWritten) == Crash
  {
  }

  /** As written, the trace above crashes the server. */
  lemma {:induction false} DanglingTraceCrashesAsWritten()
    ensures Run(Boot, DanglingTrace, AsWritten) == Crash
  {
    var es := DanglingTrace;
    TraceCreate();
    TraceJoin();
    TraceStart();
    TraceTimeout();
    TraceHostLeaves();
    TraceDelayedStart();
    assert Run(S5, es[5..], AsWritten) == Crash;
    assert Run(S4, es[4..], AsWritten) == Crash;
    assert Run(S3, es[3..], AsWritten) == Crash;
    assert Run(S2, es[2..], AsWritten) == Crash;
    assert Run(S1, es[1..], AsWritten) == Crash;
  }

  /** The corrected server survives the same trace (and every other). */
  lemma DanglingTraceSurvivesCorrected()
    ensures Run(Boot, DanglingTrace, Corrected).Next?
  {
    CorrectedRunNeverCrashes(Boot, DanglingTrace);
  }

  /** As written, a join into a room whose turn timer is pending crashes at
      the emit of server.js:81; the corrected server, which emits the state
      without the timer handle, admits the joiner. */
  lemma PendingTimerJoinCrashes(s: State, sock: SocketId, username: string, code: RoomCode)
    requires code in s.rooms && |s.rooms[code].players| < MaxPlayers
    requires s.rooms[code].gameState.isTimerRunning
    ensures Step(s, Join(sock, username, code), AsWritten) == Crash
    ensures Step(s, Join(sock, username, code), Corrected).Next?
    ensures Step(s, Join(sock, username, code), Corrected).state.rooms[code].players
      == s.rooms[code].players + [Player(sock, username, 0)]
  {
    JoinStep(s, sock, username, code, AsWritten);
    JoinStep(s, sock, username, code, Corrected);
  }

  /** As written, a player other than the turn holder leaving a room with
      others in it while the turn timer is pending crashes at the emit of
      server.js:148; the corrected server removes the player. */
  lemma PendingTimerLeaveCrashes(s: State, sock: SocketId)
    requires JoinedRoom(s, sock).Some?
    requires var room := s.rooms[JoinedRoom(s, sock).value];
      && room.gameState.isTimerRunning
      && |room.players| > 1
      && 0 <= FindIndex(room.players, sock) != room.gameState.currentPlayerIndex
    ensures Step(s, Disconnect(sock), AsWritten) == Crash
    ensures Step(s, Disconnect(sock), Corrected).Next?
    ensures var room := s.rooms[JoinedRoom(s, sock).value];
      Step(s, Disconnect(sock), Corrected).state.rooms[JoinedRoom(s, sock).value].players
        == RemoveAt(room.players, FindIndex(room.players, sock))
  {
    DisconnectStep(s, sock, AsWritten);
    DisconnectStep(s, sock, Corrected);
  }

  /** The smallest instance of each: two players in B's turn; a third
      player joining, or A leaving, crashes the server as written. */
  lemma MidTurnExamples()
    ensures Step(S2.(rooms := map[Code := Room([A, B], BTurn)]), Join("c", "C", Code), AsWritten) == Crash
    ensures Step(S2.(rooms := map[Code := Room([A, B], BTurn)]), Disconnect("a"), AsWritten) == Crash
  {
    var t := S2.(rooms := map[Code := Room([A, B], BTurn)]);
    PendingTimerJoinCrashes(t, "c", "C", Code);
    assert JoinedRoom(t, "a") == Some(Code);
    assert FindIndex([A, B], "a") == 0;
    PendingTimerLeaveCrashes(t, "a");
  }

  /** As written, a join naming a property that every plain object inherits
      finds a truthy non-room at server.js:51 and throws at server.js:55,
      whatever the state; the corrected server answers "Room not found." and
      changes nothing. */
  lemma PrototypeJoinCrashes(s: State, sock: SocketId, username: string, code: RoomCode)
    requires code in ObjectPrototypeKeys && code !in s.rooms
    ensures Step(s, Join(sock, username, code), AsWritten) == Crash
    ensures Step(s, Join(sock, username, code), Corrected) == Next(s)
  {
    JoinStep(s, sock, username, code, AsWritten);
    JoinStep(s, sock, username, code, Corrected);
  }

  /** The smallest instance: on a fresh server, `joinRoom("constructor")`. */
  lemma ConstructorJoinCrashes()
    ensures Step(Boot, Join("x", "X", "constructor"), AsWritten) == Crash
  {
    PrototypeJoinCrashes(Boot, "x", "X", "constructor");
  }
}
