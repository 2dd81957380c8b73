/** What a disconnect does to the room the socket had joined
    (server.js:123-135): the leaving player's entry is spliced out and, when
    the turn holder left a running game, the turn moves on. Deleting a room
    that became empty is the server step's business. */
module Departure {
  import opened Model
  import opened Turns

  /** The disconnect handler as written. A departure below the current index
      leaves `currentPlayerIndex` untouched; when the turn holder leaves, the
      index is wrapped to 0 if it now lies past the end and `nextTurn`
      advances it once more. */
  function Leave(room: Room, sock: SocketId): (r: Room)
    ensures FindIndex(room.players, sock) < 0 ==> r == room
    ensures var p := FindIndex(room.players, sock);
      p >= 0 ==>
      && r.players == RemoveAt(room.players, p)
      && (!(room.gameState.isGameRunning && room.gameState.currentPlayerIndex == p)
          ==> r.gameState == room.gameState)
      && (room.gameState.isGameRunning && room.gameState.currentPlayerIndex == p && |r.players| == 0
          ==> r.gameState == InitialGameState())
      && (room.gameState.isGameRunning && room.gameState.currentPlayerIndex == p && |r.players| > 0
          ==> r.gameState.isGameRunning && IndexInRange(r))
      && (room.gameState.isGameRunning && room.gameState.currentPlayerIndex == p
          ==> !r.gameState.isTimerRunning)
  {
    var p := FindIndex(room.players, sock);
    if p < 0 then room
    else
      var ps := RemoveAt(room.players, p);
      var g := room.gameState;
      if g.isGameRunning && g.currentPlayerIndex == p then
        var adjusted := if g.currentPlayerIndex >= |ps| then g.(currentPlayerIndex := 0) else g;
        NextTurn(Room(ps, adjusted))
      else Room(ps, g)
  }

  /** The disconnect handler with the index kept pointing at the same
      player: a departure below the current index shifts it down by one, and
      when the turn holder leaves the turn passes to the player who followed
      them (the index is set to `p - 1` before `nextTurn` advances it). */
  function LeaveCorrected(room: Room, sock: SocketId): (r: Room)
    ensures FindIndex(room.players, sock) < 0 ==> r == room
    ensures var p := FindIndex(room.players, sock);
      p >= 0 ==>
      && r.players == RemoveAt(room.players, p)
      && (!room.gameState.isGameRunning ==> r.gameState == room.gameState)
      && (room.gameState.isGameRunning && room.gameState.currentPlayerIndex == p && |r.players| == 0
          ==> r.gameState == InitialGameState())
      && (room.gameState.isGameRunning && room.gameState.currentPlayerIndex == p
          ==> !r.gameState.isTimerRunning)
      && (!(room.gameState.isGameRunning && room.gameState.currentPlayerIndex == p)
          ==> r.gameState.isTimerRunning == room.gameState.isTimerRunning)
  {
    var p := FindIndex(room.players, sock);
    if p < 0 then room
    else
      var ps := RemoveAt(room.players, p);
      var g := room.gameState;
      if g.isGameRunning && g.currentPlayerIndex == p then
        NextTurn(Room(ps, g.(currentPlayerIndex := p - 1)))
      else if g.isGameRunning && p < g.currentPlayerIndex then
        Room(ps, g.(currentPlayerIndex := g.currentPlayerIndex - 1))
      else Room(ps, g)
  }

  /** With the corrected handler, a departure other than the turn holder's
      leaves the turn with the same player. */
  lemma {:induction false} OtherLeavesCorrected(room: Room, sock: SocketId)
    requires room.gameState.isGameRunning && IndexInRange(room)
    requires 0 <= FindIndex(room.players, sock) != room.gameState.currentPlayerIndex
    ensures var r := LeaveCorrected(room, sock);
      && r.gameState.isGameRunning && IndexInRange(r)
      && r.players[r.gameState.currentPlayerIndex] == room.players[room.gameState.currentPlayerIndex]
  {
    var p := FindIndex(room.players, sock);
    var i := room.gameState.currentPlayerIndex;
    var ps := RemoveAt(room.players, p);
    if p < i {
      assert ps[i - 1] == room.players[i];
    } else {
      assert ps[i] == room.players[i];
    }
  }

  /** With the corrected handler, when the turn holder leaves and others
      remain, the turn passes to the player who followed them in the old
      cyclic order. */
  lemma {:induction false} HolderLeavesCorrected(room: Room, sock: SocketId)
    requires room.gameState.isGameRunning && IndexInRange(room)
    requires FindIndex(room.players, sock) == room.gameState.currentPlayerIndex
    requires |room.players| > 1
    ensures var r := LeaveCorrected(room, sock);
      && r.gameState.isGameRunning && IndexInRange(r)
      && r.players[r.gameState.currentPlayerIndex]
         == room.players[(room.gameState.currentPlayerIndex + 1) % |room.players|]
  {
    var p := room.gameState.currentPlayerIndex;
    var n := |room.players|;
    var ps := RemoveAt(room.players, p);
    var r := NextTurn(Room(ps, room.gameState.(currentPlayerIndex := p - 1)));
    assert LeaveCorrected(room, sock) == r;
    var k := r.gameState.currentPlayerIndex;
    var m := n - 1;
    assert k == p % m;
    if p < m {
      SmallMod(p, m);
      SmallMod(p + 1, n);
      assert ps[p] == room.players[p + 1];
    } else {
      SelfMod(m);
      SelfMod(n);
      assert ps[0] == room.players[0];
    }
  }
}
