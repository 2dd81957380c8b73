/** The whole server as one state machine: the `rooms` map, the room each
    socket last joined (`socket.data.roomCode`), and one step per inbound
    event (server.js:37-152). Timer callbacks are events the environment
    may fire at any moment: `TurnTimeout` is the `setTimeout` of
    server.js:185-188 and `TurnDelayElapsed` the one of server.js:234. */
module Server {
  import opened Wrappers
  import opened Model
  import opened Registry
  import opened Turns
  import opened Departure

  datatype State = State(rooms: map<RoomCode, Room>, roomOf: map<SocketId, RoomCode>)

  /** The state before any connection. */
  const Boot: State := State(map[], map[])

  datatype Event =
    | Create(sock: SocketId, username: string, draws: seq<RoomCode>)
    | Join(sock: SocketId, username: string, code: RoomCode)
    | Start(sock: SocketId, draw: LetterDraw)
    | Disconnect(sock: SocketId)
    | TurnTimeout(code: RoomCode)
    | TurnDelayElapsed(code: RoomCode)

  /** Which server runs: the one in the source, or the corrected one. The
      corrected server keeps the turn index pointing at the same player when
      someone leaves, looks a room code up among the map's own keys only,
      and emits a game state without its timer handle. */
  datatype Policy = AsWritten | Corrected

  /** `Crash` stands for an exception thrown inside a handler, which ends
      the process: the TypeError of reading a field of something that is not
      there (a missing player, or a prototype property taken for a room), or
      the failure to serialise a pending timer handle (`EmitThrows`). */
  datatype StepResult = Next(state: State) | Crash

  /** What `rooms[code]` yields: a room, nothing, or an inherited property
      of `Object.prototype`, which is truthy but has no room fields. */
  datatype Lookup = Found(room: Room) | Missing | NotARoom

  function LookupRoom(s: State, code: RoomCode, policy: Policy): (r: Lookup)
    ensures r.Found? <==> code in s.rooms
    ensures r.Found? ==> r.room == s.rooms[code]
    ensures r.NotARoom? <==> policy.AsWritten? && code !in s.rooms && code in ObjectPrototypeKeys
  {
    if code in s.rooms then Found(s.rooms[code])
    else if policy.AsWritten? && code in ObjectPrototypeKeys then NotARoom
    else Missing
  }

  /** `socket.data.roomCode`, unless it is unset or the empty code: both are
      falsy and make `startGame` and `disconnect` return at once. */
  function RecordedCode(s: State, sock: SocketId): (r: Option<RoomCode>)
  {
    if sock in s.roomOf && s.roomOf[sock] != "" then Some(s.roomOf[sock]) else None
  }

  /** The recorded room of a socket, when that room exists. */
  function JoinedRoom(s: State, sock: SocketId): (r: Option<RoomCode>)
  {
    if RecordedCode(s, sock).Some? && s.roomOf[sock] in s.rooms then Some(s.roomOf[sock]) else None
  }

  /** Whether emitting the room's game state as it is throws. While the turn
      timer runs, `gameState.timerId` holds the pending `Timeout` stored at
      server.js:185, which the runtime links into a circular timer list, so
      Socket.IO cannot serialise it. server.js:81 and server.js:148 emit the
      state as it is; the emits at server.js:181 and server.js:231 follow a
      `clearTimeout`, and server.js:220 emits a fresh state. The corrected
      server leaves the handle out of every emit. */
  predicate EmitThrows(policy: Policy, room: Room)
  {
    policy.AsWritten? && room.gameState.isTimerRunning
  }

  function LeaveBy(policy: Policy, room: Room, sock: SocketId): (r: Room)
  {
    if policy.AsWritten? then Leave(room, sock) else LeaveCorrected(room, sock)
  }

  function Step(s: State, e: Event, policy: Policy): (r: StepResult)
    ensures e.Create? ==> r.Next?
    ensures e.Join? && policy.Corrected? ==> r.Next?
    ensures r.Next? && !e.Create? ==> r.state.rooms.Keys <= s.rooms.Keys
  {
    match e
    case Create(sock, username, draws) =>
      (match CreateRoom(s.rooms, draws, sock, username)
       case None => Next(s)
       case Some((code, rooms)) => Next(State(rooms, s.roomOf[sock := code])))
    case Join(sock, username, code) =>
      if LookupRoom(s, code, policy).NotARoom? then Crash
      else
        (match JoinRoom(s.rooms, code, sock, username)
         case Failure(_) => Next(s)
         case Success(rooms) =>
           if EmitThrows(policy, rooms[code]) then Crash
           else Next(State(rooms, s.roomOf[sock := code])))
    case Start(sock, draw) =>
      (match RecordedCode(s, sock)
       case None => Next(s)
       case Some(code) =>
         match LookupRoom(s, code, policy)
         case Missing => Next(s)
         case NotARoom => Crash
         case Found(room) =>
           if |room.players| == 0 then Crash
           else Next(s.(rooms := s.rooms[code := StartGame(room, sock, draw)])))
    case Disconnect(sock) =>
      var gone := s.roomOf - {sock};
      (match RecordedCode(s, sock)
       case None => Next(s.(roomOf := gone))
       case Some(code) =>
         match LookupRoom(s, code, policy)
         case Missing => Next(s.(roomOf := gone))
         case NotARoom => Crash
         case Found(room) =>
           if FindIndex(room.players, sock) < 0 then Next(s.(roomOf := gone))
           else
             var left := LeaveBy(policy, room, sock);
             if |left.players| == 0 then Next(State(s.rooms - {code}, gone))
             else if EmitThrows(policy, left) then Crash
             else Next(State(s.rooms[code := left], gone)))
    case TurnTimeout(code) =>
      (match LookupRoom(s, code, policy)
       case Missing => Next(s)
       case NotARoom => Crash
       case Found(room) =>
         if !room.gameState.isGameRunning then Next(s)
         else if !IndexInRange(room) then Crash
         else Next(s.(rooms := s.rooms[code := HandleTurnResult(room, false, 0)])))
    case TurnDelayElapsed(code) =>
      (match LookupRoom(s, code, policy)
       case Missing => Next(s)
       case NotARoom => Crash
       case Found(room) =>
         if !TurnCanStart(room) then Next(s)
         else if !IndexInRange(room) then Crash
         else Next(s.(rooms := s.rooms[code := StartTurn(room)])))
  }

  /** Runs a sequence of events, stopping at the first crash. */
  function Run(s: State, es: seq<Event>, policy: Policy): (r: StepResult)
    decreases |es|
  {
    if |es| == 0 then Next(s)
    else match Step(s, es[0], policy)
      case Crash => Crash
      case Next(t) => Run(t, es[1..], policy)
  }

  /** What holds of every room in every state reached: it has between one
      and `MaxPlayers` players, a running game has a non-negative turn index,
      and every score is a non-negative multiple of `PointsPerCorrect`. */
  predicate RoomOk(room: Room)
  {
    && 1 <= |room.players| <= MaxPlayers
    && (room.gameState.isGameRunning ==> room.gameState.currentPlayerIndex >= 0)
    && forall i :: 0 <= i < |room.players| ==>
         room.players[i].score >= 0 && room.players[i].score % PointsPerCorrect == 0
  }

  /** No room code and no socket's recorded code is a prototype property. */
  predicate NoPrototypeCodes(s: State)
  {
    && (forall code :: code in s.rooms ==> code !in ObjectPrototypeKeys)
    && (forall sock :: sock in s.roomOf ==> s.roomOf[sock] !in ObjectPrototypeKeys)
  }

  predicate Inv(s: State)
  {
    && (forall code :: code in s.rooms ==> RoomOk(s.rooms[code]))
    && NoPrototypeCodes(s)
  }

  /** The invariant server.js:176 and server.js:201 rely on, which only the corrected
      disconnect handler keeps: a running game's index denotes a player. */
  predicate InvCorrected(s: State)
  {
    && Inv(s)
    && forall code :: code in s.rooms && s.rooms[code].gameState.isGameRunning ==> IndexInRange(s.rooms[code])
  }

  /** A create leaves every socket's recorded room alone except the
      creator's, which becomes the fresh code; the rooms are those the
      registry's `createRoom` produces. Draws that never end the code loop
      change nothing. */
  lemma CreateStep(s: State, sock: SocketId, username: string, draws: seq<RoomCode>, policy: Policy)
    ensures Step(s, Create(sock, username, draws), policy).Next?
    ensures CreateRoom(s.rooms, draws, sock, username).None? ==>
      Step(s, Create(sock, username, draws), policy) == Next(s)
    ensures CreateRoom(s.rooms, draws, sock, username).Some? ==>
      var (code, rooms) := CreateRoom(s.rooms, draws, sock, username).value;
      var t := Step(s, Create(sock, username, draws), policy).state;
      && code !in s.rooms
      && t.rooms == rooms
      && t.rooms[code].players == [Player(sock, username, 0)]
      && t.roomOf == s.roomOf[sock := code]
  {
  }

  /** As written, a join crashes when it names a prototype property that no
      room has, and when it enters a room whose turn timer is pending (the
      emit at server.js:81). Other joins on a missing or full room change
      nothing; any other join appends exactly the joiner, with score 0, to
      that room alone, and records the room as the socket's. */
  lemma JoinStep(s: State, sock: SocketId, username: string, code: RoomCode, policy: Policy)
    ensures Step(s, Join(sock, username, code), policy).Crash?
        <==> policy.AsWritten? &&
             ((code !in s.rooms && code in ObjectPrototypeKeys)
              || (code in s.rooms && |s.rooms[code].players| < MaxPlayers && s.rooms[code].gameState.isTimerRunning))
    ensures Step(s, Join(sock, username, code), policy) == Next(s)
        <==> && !(policy.AsWritten? && code !in s.rooms && code in ObjectPrototypeKeys)
             && (code !in s.rooms || |s.rooms[code].players| >= MaxPlayers)
    ensures code in s.rooms && |s.rooms[code].players| < MaxPlayers && Step(s, Join(sock, username, code), policy).Next? ==>
      var t := Step(s, Join(sock, username, code), policy).state;
      && t.rooms.Keys == s.rooms.Keys
      && t.rooms[code].players == s.rooms[code].players + [Player(sock, username, 0)]
      && t.rooms[code].gameState == s.rooms[code].gameState
      && (forall c :: c in s.rooms && c != code ==> t.rooms[c] == s.rooms[c])
      && t.roomOf == s.roomOf[sock := code]
  {
    if code in s.rooms && |s.rooms[code].players| < MaxPlayers && Step(s, Join(sock, username, code), policy).Next? {
      var t := Step(s, Join(sock, username, code), policy).state;
      var ps := s.rooms[code].players;
      assert t.rooms[code].players == ps + [Player(sock, username, 0)];
      assert |t.rooms[code].players| != |ps|;
    }
  }

  /** `startGame` does nothing unless the socket's recorded room exists;
      as written, a recorded code naming a prototype property crashes it.
      When the room exists and is not empty, only that room changes, to
      what `StartGame` makes of it, and no recorded room changes. */
  lemma StartStep(s: State, sock: SocketId, draw: LetterDraw, policy: Policy)
    ensures JoinedRoom(s, sock).None? && !(policy.AsWritten? && sock in s.roomOf && s.roomOf[sock] in ObjectPrototypeKeys)
      ==> Step(s, Start(sock, draw), policy) == Next(s)
    ensures JoinedRoom(s, sock).None? && policy.AsWritten? && sock in s.roomOf && s.roomOf[sock] in ObjectPrototypeKeys
      ==> Step(s, Start(sock, draw), policy) == Crash
    ensures JoinedRoom(s, sock).Some? ==>
      var code := JoinedRoom(s, sock).value;
      |s.rooms[code].players| > 0 ==>
        var t := Step(s, Start(sock, draw), policy).state;
        && Step(s, Start(sock, draw), policy).Next?
        && t.roomOf == s.roomOf
        && t.rooms.Keys == s.rooms.Keys
        && t.rooms[code] == StartGame(s.rooms[code], sock, draw)
        && (forall c :: c in s.rooms && c != code ==> t.rooms[c] == s.rooms[c])
  {
  }

  /** A disconnect forgets the socket and touches only the room it had
      joined last. When that room is gone, or the socket never recorded
      one, nothing else changes (server.js:121); as written, a recorded code
      naming a prototype property crashes it. If the socket is a player in
      its room, exactly its first entry is removed, and the room is deleted
      exactly when that entry was the last one. As written, a departure that
      leaves players behind crashes at the emit of server.js:148 exactly when
      the turn timer is still pending afterwards: when it ran and the
      departure was not the running turn holder's, whose departure stops it
      through `nextTurn`. */
  lemma DisconnectStep(s: State, sock: SocketId, policy: Policy)
    ensures JoinedRoom(s, sock).None? && !(policy.AsWritten? && sock in s.roomOf && s.roomOf[sock] in ObjectPrototypeKeys)
      ==> Step(s, Disconnect(sock), policy) == Next(s.(roomOf := s.roomOf - {sock}))
    ensures JoinedRoom(s, sock).None? && policy.AsWritten? && sock in s.roomOf && s.roomOf[sock] in ObjectPrototypeKeys
      ==> Step(s, Disconnect(sock), policy) == Crash
    ensures JoinedRoom(s, sock).Some? ==>
      var room := s.rooms[JoinedRoom(s, sock).value];
      var p := FindIndex(room.players, sock);
      && (Step(s, Disconnect(sock), policy).Crash? <==>
            p >= 0 && |room.players| > 1 && EmitThrows(policy, LeaveBy(policy, room, sock)))
      && (policy.AsWritten? && p >= 0 && |room.players| > 1 ==>
            (Step(s, Disconnect(sock), policy).Crash? <==>
               room.gameState.isTimerRunning
               && !(room.gameState.isGameRunning && room.gameState.currentPlayerIndex == p)))
    ensures JoinedRoom(s, sock).Some? && Step(s, Disconnect(sock), policy).Next? ==>
      var code := JoinedRoom(s, sock).value;
      var room := s.rooms[code];
      var p := FindIndex(room.players, sock);
      var t := Step(s, Disconnect(sock), policy).state;
      && t.roomOf == s.roomOf - {sock}
      && t.rooms.Keys <= s.rooms.Keys
      && (forall c :: c in s.rooms && c != code ==> c in t.rooms && t.rooms[c] == s.rooms[c])
      && (p < 0 ==> t.rooms == s.rooms)
      && (p >= 0 ==> (code in t.rooms <==> |room.players| > 1))
      && (p >= 0 && code in t.rooms ==> t.rooms[code].players == RemoveAt(room.players, p))
  {
    if JoinedRoom(s, sock).None? {
      DisconnectWithoutRoom(s, sock, policy);
      return;
    }
    var code := JoinedRoom(s, sock).value;
    var room := s.rooms[code];
    assert RecordedCode(s, sock) == Some(code);
    assert LookupRoom(s, code, policy) == Found(room);
    var p := FindIndex(room.players, sock);
    var gone := s.roomOf - {sock};
    if p >= 0 {
      var left := LeaveBy(policy, room, sock);
      assert left.players == RemoveAt(room.players, p);
      if |left.players| == 0 {
        assert Step(s, Disconnect(sock), policy) == Next(State(s.rooms - {code}, gone));
      } else if EmitThrows(policy, left) {
        assert Step(s, Disconnect(sock), policy) == Crash;
      } else {
        assert Step(s, Disconnect(sock), policy) == Next(State(s.rooms[code := left], gone));
      }
    } else {
      assert Step(s, Disconnect(sock), policy) == Next(s.(roomOf := gone));
    }
  }

  /** The early return of `disconnect` (server.js:121): without a live
      recorded room the socket is only forgotten, unless, as written, its
      recorded code is a prototype property, which crashes the server. */
  lemma DisconnectWithoutRoom(s: State, sock: SocketId, policy: Policy)
    requires JoinedRoom(s, sock).None?
    ensures !(policy.AsWritten? && sock in s.roomOf && s.roomOf[sock] in ObjectPrototypeKeys)
      ==> Step(s, Disconnect(sock), policy) == Next(s.(roomOf := s.roomOf - {sock}))
    ensures policy.AsWritten? && sock in s.roomOf && s.roomOf[sock] in ObjectPrototypeKeys
      ==> Step(s, Disconnect(sock), policy) == Crash
  {
    var gone := s.roomOf - {sock};
    match RecordedCode(s, sock)
    case None =>
      assert !(sock in s.roomOf && s.roomOf[sock] in ObjectPrototypeKeys);
      assert Step(s, Disconnect(sock), policy) == Next(s.(roomOf := gone));
    case Some(code) =>
      assert code !in s.rooms;
      if policy.AsWritten? && code in ObjectPrototypeKeys {
        assert Step(s, Disconnect(sock), policy) == Crash;
      } else {
        assert Step(s, Disconnect(sock), policy) == Next(s.(roomOf := gone));
      }
  }

  /** A timer callback never adds, removes or reorders players, never
      creates or deletes a room, and acts on its own room only. */
  lemma TimerStep(s: State, e: Event, policy: Policy)
    requires e.TurnTimeout? || e.TurnDelayElapsed?
    requires Step(s, e, policy).Next?
    ensures var t := Step(s, e, policy).state;
      && t.roomOf == s.roomOf
      && t.rooms.Keys == s.rooms.Keys
      && (forall c :: c in s.rooms && c != e.code ==> t.rooms[c] == s.rooms[c])
      && (e.code in s.rooms ==> SameRoster(t.rooms[e.code].players, s.rooms[e.code].players))
  {
  }

  lemma {:induction false} JoinKeepsRoomOk(rooms: map<RoomCode, Room>, code: RoomCode, sock: SocketId, username: string)
    requires forall c :: c in rooms ==> RoomOk(rooms[c])
    requires JoinRoom(rooms, code, sock, username).Success?
    ensures var r := JoinRoom(rooms, code, sock, username).value;
      forall c :: c in r ==> RoomOk(r[c])
  {
    var r := JoinRoom(rooms, code, sock, username).value;
    var before := rooms[code].players;
    var ps := r[code].players;
    forall i | 0 <= i < |ps|
      ensures ps[i].score >= 0 && ps[i].score % PointsPerCorrect == 0
    {
      if i < |before| {
        assert ps[i] == ps[..|before|][i];
      }
    }
  }

  lemma {:induction false} LeaveKeepsRoomOk(policy: Policy, room: Room, sock: SocketId)
    requires RoomOk(room)
    requires FindIndex(room.players, sock) >= 0
    requires |LeaveBy(policy, room, sock).players| > 0
    ensures RoomOk(LeaveBy(policy, room, sock))
    ensures policy.Corrected? && room.gameState.isGameRunning && IndexInRange(room) ==>
      var r := LeaveBy(policy, room, sock);
      r.gameState.isGameRunning ==> IndexInRange(r)
  {
    var p := FindIndex(room.players, sock);
    var r := LeaveBy(policy, room, sock);
    assert forall j :: 0 <= j < |r.players| ==> r.players[j] == room.players[if j < p then j else j + 1];
    if policy.Corrected? && room.gameState.isGameRunning && IndexInRange(room) {
      if p == room.gameState.currentPlayerIndex {
        HolderLeavesCorrected(room, sock);
      } else {
        OtherLeavesCorrected(room, sock);
      }
    }
  }

  lemma CreateKeepsInv(s: State, e: Event, policy: Policy)
    requires Inv(s) && e.Create?
    ensures Inv(Step(s, e, policy).state)
  {
    CreateStep(s, e.sock, e.username, e.draws, policy);
  }

  lemma JoinKeepsInv(s: State, e: Event, policy: Policy)
    requires Inv(s) && e.Join?
    requires Step(s, e, policy).Next?
    ensures Inv(Step(s, e, policy).state)
  {
    if JoinRoom(s.rooms, e.code, e.sock, e.username).Success? {
      JoinKeepsRoomOk(s.rooms, e.code, e.sock, e.username);
    }
  }

  lemma DisconnectKeepsInv(s: State, e: Event, policy: Policy)
    requires Inv(s) && e.Disconnect?
    ensures Step(s, e, policy).Crash? ==>
      && policy.AsWritten?
      && JoinedRoom(s, e.sock).Some?
      && s.rooms[JoinedRoom(s, e.sock).value].gameState.isTimerRunning
    ensures Step(s, e, policy).Next? ==> Inv(Step(s, e, policy).state)
  {
    DisconnectStep(s, e.sock, policy);
    match JoinedRoom(s, e.sock) {
      case None =>
        assert e.sock in s.roomOf ==> s.roomOf[e.sock] !in ObjectPrototypeKeys;
      case Some(code) =>
        var room := s.rooms[code];
        if FindIndex(room.players, e.sock) >= 0 && |LeaveBy(policy, room, e.sock).players| > 0 {
          LeaveKeepsRoomOk(policy, room, e.sock);
        }
    }
  }

  lemma RoomEventKeepsInv(s: State, e: Event, policy: Policy)
    requires Inv(s) && (e.Start? || e.TurnTimeout? || e.TurnDelayElapsed?)
    ensures e.Start? ==> Step(s, e, policy).Next?
    ensures Step(s, e, policy).Next? ==> Inv(Step(s, e, policy).state)
  {
  }

  /** Every step keeps the invariant, and from an invariant state the only
      steps that can crash are timer callbacks and, as written, a join
      naming a prototype property, and a join or departure in a room whose
      turn timer is pending. */
  lemma {:induction false} StepKeepsInv(s: State, e: Event, policy: Policy)
    requires Inv(s)
    ensures Step(s, e, policy).Crash? ==>
      || e.TurnTimeout?
      || e.TurnDelayElapsed?
      || (&& policy.AsWritten? && e.Join?
          && (e.code in ObjectPrototypeKeys || (e.code in s.rooms && s.rooms[e.code].gameState.isTimerRunning)))
      || (&& policy.AsWritten? && e.Disconnect? && JoinedRoom(s, e.sock).Some?
          && s.rooms[JoinedRoom(s, e.sock).value].gameState.isTimerRunning)
    ensures Step(s, e, policy).Next? ==> Inv(Step(s, e, policy).state)
  {
    match e
    case Create(_, _, _) => CreateKeepsInv(s, e, policy);
    case Join(sock, username, code) =>
      JoinStep(s, sock, username, code, policy);
      if Step(s, e, policy).Next? {
        JoinKeepsInv(s, e, policy);
      }
    case Disconnect(_) => DisconnectKeepsInv(s, e, policy);
    case Start(_, _) => RoomEventKeepsInv(s, e, policy);
    case TurnTimeout(_) => RoomEventKeepsInv(s, e, policy);
    case TurnDelayElapsed(_) => RoomEventKeepsInv(s, e, policy);
  }

  /** On the corrected server no step crashes, and a running game's index
      always denotes a player. */
  lemma {:induction false} CorrectedStepKeepsInv(s: State, e: Event)
    requires InvCorrected(s)
    ensures Step(s, e, Corrected).Next?
    ensures InvCorrected(Step(s, e, Corrected).state)
  {
    StepKeepsInv(s, e, Corrected);
    match e
    case Create(sock, username, draws) =>
    case Join(sock, username, code) =>
    case Start(sock, draw) =>
    case Disconnect(sock) =>
      match JoinedRoom(s, sock) {
        case None =>
        case Some(code) =>
          var room := s.rooms[code];
          if FindIndex(room.players, sock) >= 0 && |LeaveBy(Corrected, room, sock).players| > 0 {
            LeaveKeepsRoomOk(Corrected, room, sock);
          }
      }
    case TurnTimeout(code) =>
    case TurnDelayElapsed(code) =>
  }

  /** The server starts out satisfying both invariants. */
  lemma BootInv()
    ensures Inv(Boot) && InvCorrected(Boot)
  {
  }

  /** Every state reached from a state satisfying the invariant satisfies
      it too, `Boot` included: no room is ever empty or above
      `MaxPlayers`. */
  lemma {:induction false} RunKeepsInv(s: State, es: seq<Event>, policy: Policy)
    requires Inv(s)
    ensures Run(s, es, policy).Next? ==> Inv(Run(s, es, policy).state)
    decreases |es|
  {
    if |es| > 0 {
      StepKeepsInv(s, es[0], policy);
      if Step(s, es[0], policy).Next? {
        RunKeepsInv(Step(s, es[0], policy).state, es[1..], policy);
      }
    }
  }

  /** On the corrected server, no sequence of events crashes it. */
  lemma {:induction false} CorrectedRunNeverCrashes(s: State, es: seq<Event>)
    requires InvCorrected(s)
    ensures Run(s, es, Corrected).Next?
    ensures InvCorrected(Run(s, es, Corrected).state)
    decreases |es|
  {
    if |es| > 0 {
      CorrectedStepKeepsInv(s, es[0]);
      CorrectedRunNeverCrashes(Step(s, es[0], Corrected).state, es[1..]);
    }
  }
}
