/** The room registry: the `rooms` map, room-code generation, and the
    `createRoom` / `joinRoom` handlers (server.js:28-34, server.js:41-82). */
module Registry {
  import opened Wrappers
  import opened Model

  /** The `joinError` messages a join can answer with. */
  datatype JoinError = RoomNotFound | RoomFull

  /** `rooms[code]` is truthy: a room has the code, or the code names a
      property every plain object inherits. */
  predicate Occupied(rooms: map<RoomCode, Room>, code: RoomCode)
  {
    code in rooms || code in ObjectPrototypeKeys
  }

  /** The `do { code := draw } while (rooms[code])` loop. Each element of
      `draws` is one outcome of the random code draw; the loop returns the
      first draw for which `rooms[code]` is falsy. `None` means that the
      supplied draws never ended the loop. */
  function GenerateRoomCode(rooms: map<RoomCode, Room>, draws: seq<RoomCode>): (r: Option<RoomCode>)
    ensures r.Some? ==> r.value !in rooms && r.value !in ObjectPrototypeKeys
    ensures r.Some? ==> exists k :: 0 <= k < |draws| && draws[k] == r.value
                                    && forall j :: 0 <= j < k ==> Occupied(rooms, draws[j])
    ensures r.None? <==> forall j :: 0 <= j < |draws| ==> Occupied(rooms, draws[j])
  {
    if |draws| == 0 then None
    else if !Occupied(rooms, draws[0]) then Some(draws[0])
    else
      var rest := GenerateRoomCode(rooms, draws[1..]);
      if rest.Some? then
        ghost var k :| 0 <= k < |draws[1..]| && draws[1..][k] == rest.value
                       && forall j :: 0 <= j < k ==> Occupied(rooms, draws[1..][j]);
        assert draws[k + 1] == rest.value;
        assert forall j :: 0 <= j < k + 1 ==> Occupied(rooms, draws[j]) by {
          forall j | 0 <= j < k + 1 ensures Occupied(rooms, draws[j]) {
            if j > 0 { assert draws[j] == draws[1..][j - 1]; }
          }
        }
        rest
      else
        assert forall j :: 1 <= j < |draws| ==> draws[j] == draws[1..][j - 1];
        rest
  }

  /** The `joinRoom` helper: the joining socket becomes a player with score 0
      at the end of the room's list. */
  function AddPlayer(rooms: map<RoomCode, Room>, code: RoomCode, sock: SocketId, username: string): (r: map<RoomCode, Room>)
    requires code in rooms
    ensures r.Keys == rooms.Keys
    ensures forall c :: c in rooms && c != code ==> r[c] == rooms[c]
    ensures r[code].gameState == rooms[code].gameState
    ensures |r[code].players| == |rooms[code].players| + 1
    ensures r[code].players[..|rooms[code].players|] == rooms[code].players
    ensures r[code].players[|rooms[code].players|] == Player(sock, username, 0)
  {
    var room := rooms[code];
    rooms[code := room.(players := room.players + [Player(sock, username, 0)])]
  }

  /** The `joinRoom` event on a code that is a key of `rooms` or not a
      prototype property (for those the source throws; see the server step):
      refused when the room does not exist or already holds `MaxPlayers`
      players; otherwise the helper above. A running game does not refuse
      the join. */
  function JoinRoom(rooms: map<RoomCode, Room>, code: RoomCode, sock: SocketId, username: string): (r: Result<map<RoomCode, Room>, JoinError>)
    ensures code !in rooms <==> r == Failure(RoomNotFound)
    ensures r == Failure(RoomFull) <==> code in rooms && |rooms[code].players| >= MaxPlayers
    ensures r.Success? ==> r.value == AddPlayer(rooms, code, sock, username)
    ensures r.Success? ==> |r.value[code].players| <= MaxPlayers
  {
    if code !in rooms then Failure(RoomNotFound)
    else if |rooms[code].players| >= MaxPlayers then Failure(RoomFull)
    else Success(AddPlayer(rooms, code, sock, username))
  }

  /** The `createRoom` event: a fresh code, a room with no game running, and
      the creator joined as its only player. `None` when the supplied draws
      never produce a fresh code. */
  function CreateRoom(rooms: map<RoomCode, Room>, draws: seq<RoomCode>, sock: SocketId, username: string): (r: Option<(RoomCode, map<RoomCode, Room>)>)
    ensures r.None? <==> forall j :: 0 <= j < |draws| ==> Occupied(rooms, draws[j])
    ensures r.Some? ==> r.value.0 !in rooms && r.value.0 !in ObjectPrototypeKeys && r.value.0 in draws
    ensures r.Some? ==> r.value.1.Keys == rooms.Keys + {r.value.0}
    ensures r.Some? ==> forall c :: c in rooms ==> r.value.1[c] == rooms[c]
    ensures r.Some? ==> r.value.1[r.value.0] == Room([Player(sock, username, 0)], InitialGameState())
  {
    match GenerateRoomCode(rooms, draws)
    case None => None
    case Some(code) =>
      var empty := rooms[code := Room([], InitialGameState())];
      Some((code, AddPlayer(empty, code, sock, username)))
  }
}
