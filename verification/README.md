# AI Antakshari room and turn state machine, in Dafny

The server of the AI Antakshari game keeps a process-wide map from room code
to room. Each room holds an ordered player list (id, username, score) and a
game state: whether a game runs, whose turn it is (`currentPlayerIndex`,
`currentPlayerId`), the Hindi consonant the next song must start with, and
whether the turn timer runs. Players create and join rooms, the host (the
first player in the list) starts the game, turns time out, and players
disconnect. This project models that state machine as pure functions over
immutable data and proves what each transition does.

Modules, one per part of `server.js`:

- `Wrappers` (`wrappers.dfy`): `Option` and `Result`.
- `Model` (`model.dfy`): `Player`, `GameState`, `Room`, the constants (the 31
  consonants, the 4-player cap, 10 points per correct turn), the initial game
  state, JavaScript's truncating `%`, `findIndex` and `splice`.
- `Registry` (`registry.dfy`): room-code generation, `createRoom`,
  `joinRoom` and the `joinRoom` helper.
- `Turns` (`turns.dfy`): `startGame`, `startTurn`, `handleTurnResult`,
  `nextTurn`.
- `Departure` (`departure.dfy`): the disconnect handler's effect on a room,
  as written and corrected (see Findings).
- `Server` (`server.dfy`): the whole server as a state machine. It holds the
  rooms map and the room each socket joined last (`socket.data.roomCode`). It
  takes one step per event, and it proves the invariants that every reachable
  state keeps.
- `Findings` (`findings.dfy`): two defects of the disconnect handler, one
  of the room lookup in `joinRoom`, and one of the game-state emits, each
  with a counterexample.

Random draws and timers become inputs. A letter draw is a `LetterDraw` index
below 31. A room-code draw is a sequence of candidate codes. The two
`setTimeout` callbacks are events the environment may fire at any moment:
`TurnTimeout` is the turn timeout and `TurnDelayElapsed` the delayed
`startTurn`. That is more schedules than real timers allow, so every
invariant proved for the model also holds for real timers. The counterexample
trace in `Findings` uses only a schedule that real timers produce.

An exception thrown inside a handler ends the process. Among the modelled
events that happens in two ways. The first is a TypeError from reading a field
of something that is not there: a missing player, or a property of
`Object.prototype` taken for a room, because `rooms` is a plain object. The
second is emitting a game state whose `timerId` still holds a pending turn
timer: the runtime links a pending `Timeout` into a circular list, so
Socket.IO cannot serialise it. `startTurn` stores that handle (server.js:185)
and it stays pending exactly while `isTimerRunning` holds. The emits at
server.js:81 (a join) and server.js:148 (a departure that leaves players
behind) send the state as it is. The other emits follow a `clearTimeout` or
send a fresh state. `Server.Step` returns `Crash` in exactly these cases
(`Server.EmitThrows` decides the second). The room-level functions carry the
dereference as a `requires`. A `signal` event without a payload also throws (see Left out);
it is not one of the modelled events, so every "never crashes" statement
below is about the modelled events only.

What the code does that a reader might not expect:
- A join is refused only when the room is missing ("Room not found.") or
  holds 4 or more players ("Room is full."). A running game does not refuse
  it.
- The host is whoever is `players[0]`. When the host leaves, the next player
  in the list becomes host implicitly. No host is reassigned explicitly.
- When a player below the current turn leaves, the turn index is not
  re-computed.
- When the turn holder leaves, `nextTurn` advances the index once more after
  the splice.
- Timer callbacks carry no record of the turn they were set for. A timeout
  that escapes `clearTimeout` ends whatever turn its room is in when it
  fires. The model therefore lets a timer event fire at any moment.

## Model

| member | source | states |
|---|---|---|
| Model.InitialGameState | server.js:155-168 | the initial game state has no game and no timer running, a negative index, no turn holder, and a placeholder letter that is not a consonant |
| Model.Letter | server.js:111 | a letter draw always selects one of the 31 consonants |
| Model.EveryConsonantDrawable | server.js:111 | every consonant of the table is selected by some draw |
| Model.FindIndex | server.js:124 | the result is -1 exactly when no player has the id; otherwise it is the first position holding the id |
| Model.RemoveAt | server.js:126 | splicing out one entry keeps every other player, in the same relative order, and removes exactly that entry (as a multiset) |
| Model.JsRem | server.js:229 | JavaScript's `%` stays strictly between -n and n, agrees with the mathematical remainder for non-negative dividends, and returns a small negative dividend unchanged |
| Registry.GenerateRoomCode | server.js:28-34 | the code returned is neither a key of `rooms` nor an inherited object property; it is the first draw for which `rooms[code]` is falsy, and there is no result exactly when every draw is taken |
| Registry.AddPlayer | server.js:62-69 | the joiner is appended with its id, its username and score 0; earlier players, their order, their scores, the game state and all other rooms are unchanged |
| Registry.JoinRoom | server.js:50-60 | for a code that is not an inherited object property, a missing room answers RoomNotFound and a room with 4 or more players answers RoomFull (both if and only if); a successful join never leaves more than 4 players |
| Registry.CreateRoom | server.js:41-48 | the new room gets a fresh code, holds exactly the creator with score 0 and the initial game state, and leaves every existing room unchanged |
| Turns.ResetScores | server.js:106 | every score becomes 0 and the players, their usernames and their order are kept |
| Turns.AddToScore | server.js:204 | the chosen player's score grows by exactly the points given; every other player and the roster are unchanged |
| Turns.StartTurn | server.js:170-179 | in a running, non-empty room the announced turn holder is the player at the index and the timer runs; the players, index and letter are unchanged, and otherwise the room is unchanged |
| Turns.StartGame | server.js:95-115 | acts if and only if the sender is `players[0]` and no game runs; then every score is 0, the roster is kept, the game runs, the index is 0, the turn holder is `players[0]` and the letter is a consonant |
| Turns.NextTurn | server.js:214-229 | with a running game and players left, the index becomes (i + 1) mod the player count, which is in range; otherwise the game state becomes the initial one (not running, index -1, letter '-') |
| Turns.HandleTurnResult | server.js:197-212 | a correct result adds exactly 10 to the current player's score, changes no other player, and draws a consonant; an incorrect result changes no score and keeps the letter; either way the turn advances; without a running game nothing changes |
| Turns.TurnResultTotal | server.js:203-209 | the total of all scores grows by exactly the points the turn awards |
| Turns.AddToScoreTotal | server.js:204 | adding points to one player's score adds them to the total score |
| Departure.Leave | server.js:123-135 | the leaver's entry is removed; the game state is unchanged unless the turn holder left a running game; the last player leaving mid-game resets it to the initial state; otherwise the new index is in range |
| Departure.LeaveCorrected | server.js:123-135 | the corrected handler removes the same entry, leaves a stopped game's state alone, and resets the state when the last player leaves mid-game |
| Departure.OtherLeavesCorrected | server.js:123-135 | with the corrected handler, a player other than the turn holder leaving keeps the turn with the same player and the index in range |
| Departure.HolderLeavesCorrected | server.js:128-134 | with the corrected handler, the turn holder leaving hands the turn to the player who followed them in the old cyclic order |
| Server.LookupRoom | server.js:51 | `rooms[code]` finds a room exactly when the code is a stored key; as written, a code that is no key but an inherited object property yields a truthy value with no room fields; the corrected server sees only stored keys |
| Server.Step | server.js:37-152 | one step per event (the handlers at server.js:37-152 and the timer callbacks at server.js:185-188 and 234): a create never crashes, nor does a join on the corrected server (which emits no timer handle), and no event but a create adds a room; the step lemmas below (`CreateStep`, `JoinStep`, `StartStep`, `DisconnectStep`, `DisconnectWithoutRoom`, `TimerStep`) state each event's effect |
| Server.JoinStep | server.js:50-82 | as written, a join crashes exactly when its code names an inherited object property that no room has, or when it enters a room with room to spare whose turn timer is pending (the emit at server.js:81); on the corrected server it never crashes; otherwise it changes nothing if and only if the room is missing or holds 4 or more players, and else appends exactly the joiner to that room alone and records the room as the socket's |
| Server.CreateStep | server.js:41-48 | a create always succeeds or, when no draw is fresh, changes nothing; the new code was not a room before, the rooms are those `createRoom` makes, the new room holds only the creator, and only the creator's recorded room changes |
| Server.StartStep | server.js:95-97 | `startGame` changes nothing unless the socket's recorded room exists (as written, a recorded code naming an inherited object property crashes); when the room exists and is not empty only that room changes, to what `StartGame` makes of it, and no recorded room changes |
| Server.DisconnectStep | server.js:118-151 | a disconnect forgets the socket and touches only its room; without a recorded room that still exists only the socket is forgotten (as written, a recorded code naming an inherited object property crashes); an id not in the list changes no room; otherwise its first entry is removed and the room is deleted exactly when that entry was the last one; as written, a departure that leaves players behind crashes at the emit of server.js:148 exactly when the turn timer was pending and the leaver was not the running turn holder (whose departure stops the timer through `nextTurn`), and on the corrected server it never crashes |
| Server.DisconnectWithoutRoom | server.js:120-121 | the early return: with no recorded code, the empty code, or a room that is gone, no room changes and only the socket is forgotten, unless, as written, the recorded code is an inherited object property, which crashes |
| Server.TimerStep | server.js:170-235 | a timer callback acts on its own room only, never creates or deletes a room, and never adds, removes or reorders players |
| Server.StepKeepsInv | server.js:37-152 | every step keeps each room between 1 and 4 players, a running game's index non-negative, every score a non-negative multiple of 10, and every room code and recorded code clear of inherited object properties; among the modelled events only timer callbacks can crash, and, as written, a join naming an inherited object property and a join or departure in a room whose turn timer is pending |
| Server.BootInv | server.js:20 | the server starts with no rooms, which satisfies both invariants |
| Server.RunKeepsInv | server.js:37-152 | every state reached by a sequence of events keeps that invariant |
| Server.CorrectedStepKeepsInv | server.js:118-151 | with the corrected server (own-key room lookup, the corrected disconnect handler and emits without the timer handle) no step of a modelled event crashes, and a running game's index always denotes a player |
| Server.CorrectedRunNeverCrashes | server.js:118-151 | with the corrected server no sequence of the modelled events crashes it |
| Findings.LowerLeaveDanglesAsWritten | server.js:129 | as written, a player below the turn holder leaving while the holder is last leaves the index past the end of the list |
| Findings.HolderLeavesAsWritten | server.js:129-134 | as written, the turn holder leaving a room of 3 or more players hands the turn to the player two places after them, skipping the one who followed them |
| Findings.DanglingTraceCrashesAsWritten | server.js:176-177 | as written, create, join, start, timeout, host disconnect within the 3-second gap, delayed `startTurn` crashes the server |
| Findings.DanglingTraceSurvivesCorrected | server.js:176-177 | the corrected server runs the same trace without crashing |
| Findings.PendingTimerJoinCrashes | server.js:81 | as written, a join into a room with room to spare whose turn timer is pending crashes; the corrected server appends the joiner |
| Findings.PendingTimerLeaveCrashes | server.js:148 | as written, a player other than the turn holder leaving a room with others in it while the turn timer is pending crashes; the corrected server removes the player |
| Findings.MidTurnExamples | server.js:81 | as written, in a two-player room during B's turn, a third player joining crashes the server, and so does A leaving |
| Findings.PrototypeJoinCrashes | server.js:51-55 | as written, a join naming an inherited object property that no room has crashes the server in any state; the corrected server changes nothing |
| Findings.ConstructorJoinCrashes | server.js:51-55 | as written, `joinRoom("constructor")` on a fresh server crashes it |
| Findings.SkipExample | server.js:129-134 | with three players and the middle one holding the turn and leaving, as written the turn goes to the first player and corrected to the third |

## Left out

- The Express app, the HTTP server, `listen`, the port and CORS settings: process and I/O setup.
- Every `emit` and `socket.join`, the `userJoined` and `userLeft` notifications and the `joinError` messages: transport side effects. The one effect of an emit that is kept is the throw of serialising a pending timer handle. A refused join is the `JoinError` value and leaves the state unchanged.
- The WebRTC `signal` relay (server.js:85-92): stateless forwarding that never touches room state. A `signal` event sent without a payload makes `data.to` at server.js:87 throw, which ends the process and loses every room, on the as-written and the corrected server alike; the no-crash theorems cover the modelled events only.
- Room codes are strings. The source would take any JSON value a client sends as `roomCode`.
- Timer handles, `clearTimeout` and the 30-second and 3-second delays: both callbacks are events that may fire at any moment, and `isTimerRunning` is the only timer state kept; it also stands for whether `timerId` holds a pending timeout.
- `Math.random`: letter draws are `LetterDraw` indices and code draws are a sequence of candidates. The shape of a drawn code (up to four characters of 0-9 and A-Z) is not constrained.
- Registry.GenerateRoomCode: the source loops until a fresh code appears. The model returns `None` when the supplied draws never produce one, and the create step then changes nothing.
- The `status`, `aiMessage`, `timeLimit` and `players` fields of the game state, and `console.log`: display text only.
- No event in the source reports a correct answer. `Turns.HandleTurnResult` models both outcomes, but `Server.Step` calls it only for the timeout.
- The model lets any socket id send events, including one that has already disconnected. The real transport never does, so this allows more behaviour, not less.
- Model.JsRem: the contract pins the result down only for dividends above -n, which covers every index the server computes (the smallest is -1).

## Findings

| source | as written | input that shows it | evidently intended | confidence | as-written member | corrected member |
|---|---|---|---|---|---|---|
| server.js:129 | a player leaving from below the current index leaves `currentPlayerIndex` unchanged; it can then point past the end, and the next timeout or delayed `startTurn` dereferences `undefined` and throws | two players; A's turn times out, A disconnects within the next 3 seconds (index 1, one player), and the delayed `startTurn` reads `players[1]`, which is undefined, at server.js:176-177 | the index keeps pointing at the same player (decremented) | high, not executed | Findings.DanglingTraceCrashesAsWritten | Server.CorrectedRunNeverCrashes |
| server.js:51-55 | `rooms` is a plain object, so `rooms[code]` is truthy for inherited properties such as `constructor`; the check at line 51 passes and `.players.length` at line 55 throws | any client sends `joinRoom` with the code `constructor` | the join is refused with "Room not found." | high, not executed | Findings.PrototypeJoinCrashes | Server.CorrectedRunNeverCrashes |
| server.js:81 | the state emitted on a join, and on a departure that leaves players behind (server.js:148), still holds `timerId`; while the turn timer is pending that `Timeout` sits in the runtime's circular timer list, so serialising it throws | two players during B's turn; a third player joins, or A disconnects | the state is emitted without the timer handle | medium, not executed | Findings.PendingTimerJoinCrashes | Server.CorrectedRunNeverCrashes |
| server.js:129-134 | when the turn holder at p leaves, the player who slides into slot p is skipped because `nextTurn` advances the index again | three players A, B, C with B holding the turn; B disconnects and the turn goes to A | the turn passes to the player who followed the leaver (C) | medium, not executed | Findings.HolderLeavesAsWritten | Departure.HolderLeavesCorrected |

The corrected server fixes all four defects. It emits every game state
without its timer handle. Its disconnect handler is
`Departure.LeaveCorrected`. It decrements the index when a lower-index player
leaves. When the turn holder at p leaves, it sets the index to p - 1 before
calling `nextTurn`. The wrap-to-0 adjustment at server.js:131-133 changes
nothing about where the turn lands: (n + 1) mod n and (0 + 1) mod n agree.
That suggests the authors meant the index to land on the player who slid into
the vacated slot. Its room lookup considers only the keys the server stored
itself. `Server.Step` takes a `Policy` argument. The invariant and no-crash
theorems for the server hold under `Corrected`; under `AsWritten` only the
weaker invariant holds.
