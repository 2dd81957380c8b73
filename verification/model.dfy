/** The plain data the game server keeps: players, a room's game state, and
    the constants of the game (server.js:20-25, server.js:155-168). */
module Model {
  import opened Wrappers

  /** Opaque Socket.IO connection identifier; it doubles as the player id. */
  type SocketId = string

  /** Key of the process-wide `rooms` object. */
  type RoomCode = string

  /** The 31 consonants from which a turn's starting letter is drawn. */
  const HindiConsonants: seq<string> := [
    "\U{0915}", "\U{0916}", "\U{0917}", "\U{0918}", "\U{091A}", "\U{091B}", "\U{091C}", "\U{091D}",
    "\U{091F}", "\U{0920}", "\U{0921}", "\U{0922}", "\U{0923}", "\U{0924}", "\U{0925}", "\U{0926}",
    "\U{0927}", "\U{0928}", "\U{092A}", "\U{092B}", "\U{092C}", "\U{092D}", "\U{092E}", "\U{092F}",
    "\U{0930}", "\U{0932}", "\U{0935}", "\U{0936}", "\U{0937}", "\U{0938}", "\U{0939}"
  ]

  /** A join is refused once a room holds this many players. */
  const MaxPlayers: nat := 4

  /** Points awarded for a correct turn. */
  const PointsPerCorrect: int := 10

  /** The properties every plain JavaScript object inherits from
      `Object.prototype`. Since `rooms` is a plain object, `rooms[code]` is
      truthy for these names even when no room has that code. */
  const ObjectPrototypeKeys: set<string> := {
    "constructor", "__proto__", "hasOwnProperty", "isPrototypeOf",
    "propertyIsEnumerable", "toLocaleString", "toString", "valueOf",
    "__defineGetter__", "__defineSetter__", "__lookupGetter__", "__lookupSetter__"
  }

  /** The letter shown while no game is running. */
  const NoLetter: string := "-"

  /** `Math.floor(Math.random() * HINDI_CONSONANTS.length)`: the outcome of a
      random draw, supplied by the environment. */
  type LetterDraw = i: nat | i < |HindiConsonants|

  datatype Player = Player(id: SocketId, username: string, score: int)

  /** The game-state fields that carry behaviour; `status`, `aiMessage`,
      `timeLimit` and the timer handle are not modelled. */
  datatype GameState = GameState(
    isGameRunning: bool,
    currentPlayerIndex: int,
    currentPlayerId: Option<SocketId>,
    currentLetter: string,
    isTimerRunning: bool)

  /** One game session: the ordered player list (turn order) and its state. */
  datatype Room = Room(players: seq<Player>, gameState: GameState)

  /** The state of a room in which no game is running. */
  function InitialGameState(): (g: GameState)
    ensures !g.isGameRunning && !g.isTimerRunning
    ensures g.currentPlayerIndex < 0 && g.currentPlayerId.None?
    ensures g.currentLetter !in HindiConsonants
  {
    GameState(false, -1, None, NoLetter, false)
  }

  /** The letter a draw selects. */
  function Letter(d: LetterDraw): (l: string)
    ensures l in HindiConsonants
  {
    HindiConsonants[d]
  }

  /** Every consonant of the table is the letter of some draw, so no letter
      is out of reach of `Letter`. */
  lemma EveryConsonantDrawable(c: string)
    requires c in HindiConsonants
    ensures exists d: LetterDraw :: Letter(d) == c
  {
    var i :| 0 <= i < |HindiConsonants| && HindiConsonants[i] == c;
    assert Letter(i) == c;
  }

  /** JavaScript's `%`: the remainder truncates toward zero, so it takes the
      sign of the dividend (Dafny's `%` is Euclidean). */
  function JsRem(a: int, n: int): (r: int)
    requires n > 0
    ensures -n < r < n
    ensures a >= 0 ==> r == a % n
    ensures a <= 0 ==> r <= 0
    ensures -n < a <= 0 ==> r == a
  {
    if a >= 0 then a % n else -((-a) % n)
  }

  /** `players[currentPlayerIndex]` denotes a player. */
  predicate IndexInRange(room: Room)
  {
    0 <= room.gameState.currentPlayerIndex < |room.players|
  }

  /** Both lists hold the same players, in the same order, scores aside. */
  predicate SameRoster(a: seq<Player>, b: seq<Player>)
  {
    && |a| == |b|
    && forall i :: 0 <= i < |a| ==> a[i].id == b[i].id && a[i].username == b[i].username
  }

  /** Sum of all scores in a player list. */
  function TotalScore(ps: seq<Player>): (t: int)
  {
    if |ps| == 0 then 0 else TotalScore(ps[..|ps| - 1]) + ps[|ps| - 1].score
  }

  /** `players.findIndex(p => p.id === id)`: the first position holding `id`,
      or -1 when no player has it. */
  function FindIndex(ps: seq<Player>, id: SocketId): (i: int)
    ensures -1 <= i < |ps|
    ensures i >= 0 ==> ps[i].id == id
    ensures forall j :: 0 <= j < |ps| && (i < 0 || j < i) ==> ps[j].id != id
  {
    if |ps| == 0 then -1
    else if ps[0].id == id then 0
    else
      var k := FindIndex(ps[1..], id);
      if k < 0 then -1 else k + 1
  }

  /** `players.splice(p, 1)`: the list without its entry at `p`. */
  function RemoveAt(ps: seq<Player>, p: nat): (r: seq<Player>)
    requires p < |ps|
    ensures |r| == |ps| - 1
    ensures forall j :: 0 <= j < p ==> r[j] == ps[j]
    ensures forall j :: p <= j < |r| ==> r[j] == ps[j + 1]
    ensures multiset(r) + multiset{ps[p]} == multiset(ps)
  {
    assert ps == ps[..p] + [ps[p]] + ps[p + 1..];
    ps[..p] + ps[p + 1..]
  }

  /** A remainder of a dividend already below the divisor is the dividend. */
  lemma SmallMod(a: int, m: int)
    requires 0 <= a < m
    ensures a % m == a
  {
  }

  /** A positive number leaves no remainder by itself. */
  lemma SelfMod(m: int)
    requires 0 < m
    ensures m % m == 0
  {
  }

  /** Adding the divisor once does not change a small remainder. */
  lemma WrapMod(n: int, a: int)
    requires 0 <= a < n
    ensures (n + a) % n == a
  {
  }
}
