/** The server's game as a state machine on values: one function per engine operation
    (game-engine.cpp), and `Next`, the steps of the manage_connections loop. The class in
    GameEngine.dfy is proved to compute these functions; the other modules prove what they do. */
module GameSpec {
  import opened Types
  import opened Ordered
  import opened Blast

  /** What the server sends: to every connected slot, or to one slot. */
  datatype Outgoing = ToAll(message: ServerMessage) | ToSlot(slot: nat, message: ServerMessage)

  /** The fields of Game_engine (game-engine.h:25-52), with the random generator as a cursor into
      its stream and the sent messages as a log. */
  datatype Game = Game(
    started: bool,
    players: map<u8, Player>,
    scores: map<u8, u32>,
    positions: map<u8, Position>,
    blocks: set<Position>,
    slots: map<nat, u8>,
    nextPlayer: u8,
    turn: u16,
    toErase: seq<Position>,
    toDestroy: set<u8>,
    turns: seq<TurnInfo>,
    bombs: map<u32, Bomb>,
    nextBomb: u32,
    draws: nat,
    out: seq<Outgoing>)

  const INITIAL_GAME := Game(false, map[], map[], map[], {}, map[], 0, 0, [], {}, [], map[], 0, 0, [])

  /** The generator's output stream. */
  type Rng = nat -> u32

  /** An operation either leaves a running server or ends in an uncaught std::out_of_range. */
  datatype Outcome = Running(game: Game) | Crashed

  const FIRST_SLOT := 1
  const CONN_MAX := 26

  /** The turn log and the current turn agree, so that turns.at(current_turn) is the last entry. */
  predicate Shaped(g: Game) {
    if g.started then |g.turns| == g.turn + 1 else g.turn == 0 && g.turns == []
  }

  function AddEvent(turns: seq<TurnInfo>, k: nat, e: Event): seq<TurnInfo>
    requires k < |turns|
  {
    turns[k := TurnInfo(turns[k].turn, turns[k].events + [e])]
  }

  // ---------- begin_turn ----------

  /** An explosion marks what it hits for destruction and is logged; nothing is removed yet. */
  function Mark(g: Game, e: Event): Game
    requires g.turn < |g.turns| && e.BombExploded?
  {
    g.(toDestroy := g.toDestroy + Elems(e.robots),
       toErase := g.toErase + e.blocks,
       turns := AddEvent(g.turns, g.turn, e))
  }

  function Explode(p: Params, g: Game, id: u32, o: Position): Game
    requires g.turn < |g.turns|
  {
    Mark(g, Explosion(p, g.positions, g.blocks, id, o))
  }

  function ExplodeAll(p: Params, g: Game, ids: seq<u32>): (r: Game)
    requires g.turn < |g.turns| && forall i :: 0 <= i < |ids| ==> ids[i] in g.bombs
    ensures |r.turns| == |g.turns|
    ensures r == g.(toDestroy := r.toDestroy, toErase := r.toErase, turns := r.turns)
  {
    if ids == [] then g else
      var n := |ids| - 1;
      var r := ExplodeAll(p, g, ids[..n]);
      Explode(p, r, ids[n], r.bombs[ids[n]].position)
  }

  function Tick(b: Bomb): Bomb { Bomb(b.position, Sub16(b.timer, 1)) }

  function TickAll(bombs: map<u32, Bomb>): map<u32, Bomb> {
    map id | id in bombs :: Tick(bombs[id])
  }

  function Expired(bombs: map<u32, Bomb>): set<u32> {
    set id | id in bombs && bombs[id].timer == 0
  }

  function OpenTurn(g: Game): Game
    requires g.turn < 0xFFFF
  {
    g.(turn := g.turn + 1, turns := g.turns + [TurnInfo(g.turn + 1, [])], bombs := TickAll(g.bombs))
  }

  function BeginTurn(p: Params, g: Game): (r: Game)
    requires g.started && Shaped(g) && g.turn < 0xFFFF
    ensures r.started && Shaped(r)
  {
    var o := OpenTurn(g);
    var x := ExplodeAll(p, o, Sorted32(Expired(o.bombs)));
    x.(bombs := x.bombs - Expired(x.bombs), blocks := x.blocks - Elems(x.toErase))
  }

  // ---------- seeding ----------

  /** Two draws make a cell: x first, then y. */
  function Draw(p: Params, rng: Rng, k: nat): Position
    requires p.Valid()
  {
    Position(rng(k) % p.sizeX, rng(k + 1) % p.sizeY)
  }

  function SeedPlayer(p: Params, rng: Rng, g: Game, id: u8): Game
    requires p.Valid() && g.turn < |g.turns|
  {
    var c := Draw(p, rng, g.draws);
    g.(draws := g.draws + 2, turns := AddEvent(g.turns, g.turn, PlayerMoved(id, c)), positions := g.positions[id := c])
  }

  function SeedPlayers(p: Params, rng: Rng, g: Game, ids: seq<u8>): (r: Game)
    requires p.Valid() && g.turn < |g.turns|
    ensures |r.turns| == |g.turns|
    ensures r == g.(draws := r.draws, turns := r.turns, positions := r.positions)
  {
    if ids == [] then g else
      var n := |ids| - 1;
      SeedPlayer(p, rng, SeedPlayers(p, rng, g, ids[..n]), ids[n])
  }

  function SeedBlock(p: Params, rng: Rng, g: Game): Game
    requires p.Valid() && g.turns != []
  {
    var c := Draw(p, rng, g.draws);
    g.(draws := g.draws + 2, turns := AddEvent(g.turns, 0, BlockPlaced(c)), blocks := g.blocks + {c})
  }

  function SeedBlocks(p: Params, rng: Rng, g: Game, n: nat): (r: Game)
    requires p.Valid() && g.turns != []
    ensures |r.turns| == |g.turns|
    ensures r == g.(draws := r.draws, turns := r.turns, blocks := r.blocks)
  {
    if n == 0 then g else SeedBlock(p, rng, SeedBlocks(p, rng, g, n - 1))
  }

  function OpenGame(g: Game): Game {
    g.(started := true, turns := g.turns + [TurnInfo(0, [])], out := g.out + [ToAll(GameStarted(g.players))])
  }

  function StartGameplay(p: Params, rng: Rng, g: Game): Game
    requires p.Valid() && !g.started && Shaped(g)
  {
    var o := OpenGame(g);
    SeedBlocks(p, rng, SeedPlayers(p, rng, o, Sorted8(g.players.Keys)), p.initialBlocks)
  }

  // ---------- client messages ----------

  function Accept(g: Game, slot: nat, name: seq<u8>, address: seq<u8>): Game {
    var id, player := g.nextPlayer, Player(name, address);
    g.(nextPlayer := Add8(id, 1),
       slots := g.slots[slot := id],
       players := Insert(g.players, id, player),
       scores := Insert(g.scores, id, 0),
       out := g.out + [ToAll(AcceptedPlayer(id, player))])
  }

  function HandleJoin(p: Params, rng: Rng, g: Game, slot: nat, name: seq<u8>, address: seq<u8>): Game
    requires p.Valid() && Shaped(g)
  {
    if g.started then g else
      var a := Accept(g, slot, name, address);
      if |a.players| == p.playersCount then StartGameplay(p, rng, a) else a
  }

  /** An action is ignored from a slot that holds no player, or whose robot was destroyed this turn. */
  predicate Ignored(g: Game, slot: nat) {
    slot !in g.slots || g.slots[slot] in g.toDestroy
  }

  function HandlePlaceBomb(p: Params, g: Game, slot: nat): Outcome {
    if Ignored(g, slot) then Running(g)
    else if g.slots[slot] !in g.positions || g.turn >= |g.turns| then Crashed
    else
      var c := g.positions[g.slots[slot]];
      Running(g.(nextBomb := Add32(g.nextBomb, 1),
                 bombs := Insert(g.bombs, g.nextBomb, Bomb(c, p.bombTimer)),
                 turns := AddEvent(g.turns, g.turn, BombPlaced(g.nextBomb, c))))
  }

  function HandlePlaceBlock(g: Game, slot: nat): Outcome {
    if Ignored(g, slot) then Running(g)
    else if g.slots[slot] !in g.positions || g.turn >= |g.turns| then Crashed
    else
      var c := g.positions[g.slots[slot]];
      Running(g.(blocks := g.blocks + {c}, turns := AddEvent(g.turns, g.turn, BlockPlaced(c))))
  }

  predicate CanEnter(p: Params, blocks: set<Position>, c: Position) {
    OnBoard(p, c) && c !in blocks
  }

  /** The cell a Move leads to. A direction byte above 3 leaves the source's new_position
      uninitialised (game-engine.cpp:477-494), so it is whatever value `stale` happens to be there. */
  function Target(o: Position, direction: u8, stale: Position): Position {
    if IsDirection(direction) then Cell(o, direction, 1) else stale
  }

  function HandleMove(p: Params, g: Game, slot: nat, direction: u8, stale: Position): Outcome {
    if Ignored(g, slot) then Running(g)
    else if g.slots[slot] !in g.positions then Crashed
    else
      var id := g.slots[slot];
      var c := Target(g.positions[id], direction, stale);
      if !CanEnter(p, g.blocks, c) then Running(g)
      else if g.turn >= |g.turns| then Crashed
      else Running(g.(positions := g.positions[id := c], turns := AddEvent(g.turns, g.turn, PlayerMoved(id, c))))
  }

  function Handle(p: Params, rng: Rng, g: Game, slot: nat, m: ClientMessage, address: seq<u8>, stale: Position): Outcome
    requires p.Valid() && Shaped(g)
  {
    match m
    case Join(name) => Running(HandleJoin(p, rng, g, slot, name, address))
    case PlaceBomb => HandlePlaceBomb(p, g, slot)
    case PlaceBlock => HandlePlaceBlock(g, slot)
    case Move(d) => HandleMove(p, g, slot, d, stale)
  }

  // ---------- summarise_turn and end_gameplay ----------

  function Respawn(p: Params, rng: Rng, g: Game, id: u8): Game
    requires p.Valid() && g.turn < |g.turns| && id in g.scores
  {
    SeedPlayer(p, rng, g.(scores := g.scores[id := Add32(g.scores[id], 1)]), id)
  }

  function RespawnAll(p: Params, rng: Rng, g: Game, ids: seq<u8>): (r: Game)
    requires p.Valid() && g.turn < |g.turns| && forall i :: 0 <= i < |ids| ==> ids[i] in g.scores
    ensures |r.turns| == |g.turns| && r.scores.Keys == g.scores.Keys
    ensures r == g.(draws := r.draws, turns := r.turns, positions := r.positions, scores := r.scores)
  {
    if ids == [] then g else
      var n := |ids| - 1;
      Respawn(p, rng, RespawnAll(p, rng, g, ids[..n]), ids[n])
  }

  function CloseTurn(p: Params, rng: Rng, g: Game): (r: Game)
    requires p.Valid() && g.started && Shaped(g) && g.toDestroy <= g.scores.Keys
    ensures r.started && Shaped(r)
  {
    var r := RespawnAll(p, rng, g, Sorted8(g.toDestroy));
    r.(out := r.out + [ToAll(Turn(r.turns[r.turn]))], toErase := [], toDestroy := {})
  }

  function EndGameplay(g: Game): Game {
    INITIAL_GAME.(toErase := g.toErase, toDestroy := g.toDestroy, draws := g.draws,
                 out := g.out + [ToAll(GameEnded(g.scores))])
  }

  // ---------- greeting a new connection ----------

  function SendAccepted(players: map<u8, Player>, slot: nat, ids: seq<u8>): seq<Outgoing>
    requires forall i :: 0 <= i < |ids| ==> ids[i] in players
  {
    seq(|ids|, i requires 0 <= i < |ids| => ToSlot(slot, AcceptedPlayer(ids[i], players[ids[i]])))
  }

  function SendTurns(slot: nat, turns: seq<TurnInfo>): seq<Outgoing> {
    seq(|turns|, i requires 0 <= i < |turns| => ToSlot(slot, Turn(turns[i])))
  }

  function HelloMessage(p: Params): ServerMessage {
    Hello(p.serverName, p.playersCount, p.sizeX, p.sizeY, p.gameLength, p.explosionRadius, p.bombTimer)
  }

  function Greeting(p: Params, g: Game, slot: nat): (r: seq<Outgoing>)
    ensures forall i :: 0 <= i < |r| ==> r[i].ToSlot? && r[i].slot == slot
  {
    [ToSlot(slot, HelloMessage(p))] +
    if g.started then [ToSlot(slot, GameStarted(g.players))] + SendTurns(slot, g.turns)
    else SendAccepted(g.players, slot, Sorted8(g.players.Keys))
  }

  function Greet(p: Params, g: Game, slot: nat): Game {
    g.(out := g.out + Greeting(p, g, slot))
  }

  /** manage_connections greets slot `accept_client() >= 0`, which is 1 whichever slot the new
      client was given (game-engine.cpp:52). */
  const GREETED_SLOT := 1

  // ---------- the loop of manage_connections ----------

  /** Where the loop stands: at its head; handling connections, with the slots below `next` done;
      or after a summarised turn. */
  datatype Control = Top | Polling(next: nat) | Closed

  datatype Step =
    | StartRound
    | AcceptClient
    | Receive(slot: nat, message: ClientMessage, address: seq<u8>, stale: Position)
    | EndRound
    | Continue

  /** An action that took effect, and who asked for it. */
  datatype Act = Act(player: u8, message: ClientMessage)

  /** A server state. `base`, `born` and `acts` are history: no step reads them. They record the
      draws consumed before the current game, the turn each bomb was placed in, and each turn's
      effective actions. */
  datatype Server = Server(game: Game, control: Control, base: nat, born: seq<nat>, acts: seq<seq<Act>>)

  datatype Result = Alive(server: Server) | Dead

  const INITIAL_SERVER := Server(INITIAL_GAME, Top, 0, [], [])

  /** What the loop relies on before a step: its own control position, the counters' room, and
      `scores.at` for the players to respawn. Every reachable state provides it (see Invariant). */
  predicate Enabled(p: Params, s: Server, step: Step) {
    match step
    case StartRound => s.control.Top? && (s.game.started ==> s.game.turn < 0xFFFF)
    case AcceptClient => s.control == Polling(0)
    case Receive(slot, message, address, _) =>
      && s.control.Polling? && FIRST_SLOT <= slot < CONN_MAX && s.control.next <= slot
      && |address| < 0x100 && (message.Join? ==> |message.name| < 0x100)
    case EndRound => s.control.Polling? && (s.game.started ==> s.game.toDestroy <= s.game.scores.Keys)
    case Continue => s.control.Closed?
  }

  function LastEvents(g: Game): seq<Event> {
    if g.turns == [] then [] else g.turns[|g.turns| - 1].events
  }

  function Record(s: Server, slot: nat, m: ClientMessage, g: Game): Server {
    var s1 := Server(g, Polling(slot + 1), s.base, s.born, s.acts);
    if !s.game.started then s1.(acts := if g.started then [[]] else s.acts)
    else if |LastEvents(g)| == |LastEvents(s.game)| || slot !in s.game.slots || s.acts == [] then s1
    else
      var n := |s.acts| - 1;
      s1.(acts := s.acts[n := s.acts[n] + [Act(s.game.slots[slot], m)]],
          born := if m.PlaceBomb? then s.born + [s.game.turn] else s.born)
  }

  function Next(p: Params, rng: Rng, s: Server, step: Step): Result
    requires p.Valid() && Shaped(s.game) && Enabled(p, s, step)
  {
    var g := s.game;
    match step
    case StartRound =>
      if g.started then Alive(Server(BeginTurn(p, g), Polling(0), s.base, s.born, s.acts + [[]]))
      else Alive(s.(control := Polling(0)))
    case AcceptClient =>
      Alive(s.(game := Greet(p, g, GREETED_SLOT), control := Polling(1)))
    case Receive(slot, m, address, stale) =>
      (match Handle(p, rng, g, slot, m, address, stale)
       case Crashed => Dead
       case Running(g') => Alive(Record(s, slot, m, g')))
    case EndRound =>
      if g.started then Alive(s.(game := CloseTurn(p, rng, g), control := Closed))
      else Alive(s.(control := Top))
    case Continue =>
      if g.turn == p.gameLength then Alive(Server(EndGameplay(g), Top, g.draws, [], []))
      else Alive(s.(control := Top))
  }
}
