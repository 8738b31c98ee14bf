/** The client's replica (game-messages.h, robots-client.cpp:221-373) as functions on values, and
    how far it mirrors the server when it is fed the server's messages. */
module Replica {
  import opened Types
  import opened TurnLog
  import opened Replay
  import opened Scoring

  datatype LobbyInfo = LobbyInfo(serverName: seq<u8>, playersCount: u8, sizeX: u16, sizeY: u16, gameLength: u16,
                                 explosionRadius: u16, bombTimer: u16, players: map<u8, Player>)

  datatype GameInfo = GameInfo(serverName: seq<u8>, sizeX: u16, sizeY: u16, gameLength: u16, bombTimer: u16, turn: u16,
                               players: map<u8, Player>, positions: map<u8, Position>, blocks: set<Position>,
                               bombs: map<u32, Bomb>, explosions: set<Position>, scores: map<u8, u32>)

  datatype Client = Client(lobby: LobbyInfo, info: GameInfo, inLobby: bool)

  /** The Game_info constructor: scores of exactly the lobby's players, 0 for those without one. The
      client passes its global score map, which nothing ever fills. The source leaves `turn` unset
      until the first Turn message; 0 stands for it here. */
  function NewGame(l: LobbyInfo, scores: map<u8, u32>): GameInfo {
    GameInfo(l.serverName, l.sizeX, l.sizeY, l.gameLength, l.bombTimer, 0, l.players, map[], {}, map[], {},
             map q | q in l.players :: if q in scores then scores[q] else 0)
  }

  function Score(scores: map<u8, u32>, hit: set<u8>): (r: map<u8, u32>)
    ensures r.Keys == scores.Keys
  {
    map q | q in scores :: if q in hit then Add32(scores[q], 1) else scores[q]
  }

  /** One event read from the stream. The lists of an explosion are read into sets; scores.at of a
      player without a score throws. Neither a placed bomb nor a moved player replaces an entry. */
  function ApplyToInfo(i: GameInfo, e: Event): Option<GameInfo> {
    match e
    case BombPlaced(id, c) => Some(i.(bombs := Insert(i.bombs, id, Bomb(c, i.bombTimer))))
    case BombExploded(id, robots, blocks) =>
      if Elems(robots) <= i.scores.Keys then
        Some(i.(bombs := i.bombs - {id}, positions := i.positions - Elems(robots),
                scores := Score(i.scores, Elems(robots)), blocks := i.blocks - Elems(blocks)))
      else None
    case PlayerMoved(q, c) => Some(i.(positions := Insert(i.positions, q, c)))
    case BlockPlaced(c) => Some(i.(blocks := i.blocks + {c}))
  }

  function ApplyAllToInfo(i: GameInfo, events: seq<Event>): Option<GameInfo> {
    if events == [] then Some(i) else
      match ApplyAllToInfo(i, events[..|events| - 1])
      case None => None
      case Some(j) => ApplyToInfo(j, events[|events| - 1])
  }

  function Hears(c: Client, m: ServerMessage): Option<Client> {
    match m
    case Hello(name, count, x, y, length, radius, timer) =>
      Some(c.(lobby := LobbyInfo(name, count, x, y, length, radius, timer, map[]), inLobby := true))
    case AcceptedPlayer(id, player) =>
      Some(c.(lobby := c.lobby.(players := Insert(c.lobby.players, id, player))))
    case GameStarted(_) =>
      Some(c.(info := NewGame(c.lobby, map[]), inLobby := false))
    case Turn(t) =>
      (match ApplyAllToInfo(c.info.(turn := t.turn, explosions := {}), t.events)
       case None => None
       case Some(i) => Some(c.(info := i)))
    case GameEnded(_) =>
      Some(c.(lobby := c.lobby.(players := map[]), inLobby := true))
  }

  function HearsAll(c: Client, ms: seq<ServerMessage>): Option<Client> {
    if ms == [] then Some(c) else
      match HearsAll(c, ms[..|ms| - 1])
      case None => None
      case Some(d) => Hears(d, ms[|ms| - 1])
  }

  lemma {:induction false} HearsConcat(c: Client, a: seq<ServerMessage>, b: seq<ServerMessage>)
    requires HearsAll(c, a).Some?
    ensures HearsAll(c, a + b) == HearsAll(HearsAll(c, a).value, b)
  {
    if b == [] {
      assert a + b == a;
    } else {
      LastOfConcat(a, b);
      HearsConcat(c, a, b[..|b| - 1]);
    }
  }

  // ---------- the cells shown ----------

  /** What an event does to the robots' cells: one that is shown already is not moved. */
  function Show(at: map<u8, Position>, e: Event): map<u8, Position> {
    match e
    case PlayerMoved(q, c) => Insert(at, q, c)
    case BombExploded(_, robots, _) => at - Elems(robots)
    case _ => at
  }

  function ShowAll(at: map<u8, Position>, events: seq<Event>): map<u8, Position> {
    if events == [] then at else Show(ShowAll(at, events[..|events| - 1]), events[|events| - 1])
  }

  function ShowTurns(turns: seq<TurnInfo>): map<u8, Position> {
    if turns == [] then map[] else ShowAll(ShowTurns(turns[..|turns| - 1]), turns[|turns| - 1].events)
  }

  lemma ShowLast(at: map<u8, Position>, events: seq<Event>)
    requires events != []
    ensures ShowAll(at, events) == Show(ShowAll(at, events[..|events| - 1]), events[|events| - 1])
  {
  }

  // ---------- one turn ----------

  /** The replica's blocks and bombs are the world's. */
  predicate SameBoard(i: GameInfo, w: World) {
    i.blocks == w.blocks && Cells(i.bombs) == w.bombs
  }

  /** Every bomb has the timer that the game began with, whenever it was placed. */
  predicate Timed(i: GameInfo) {
    forall id :: id in i.bombs ==> i.bombs[id].timer == i.bombTimer
  }

  /** Events change robots, blocks, bombs and scores only. */
  predicate Untouched(i: GameInfo, j: GameInfo) {
    j == i.(positions := j.positions, blocks := j.blocks, bombs := j.bombs, scores := j.scores)
  }

  /** A bomb placed under a new id is stored with its cell and the game's timer. */
  lemma BombIsStored(i: GameInfo, id: u32, c: Position)
    requires id !in i.bombs
    ensures ApplyToInfo(i, BombPlaced(id, c)).Some?
    ensures var j := ApplyToInfo(i, BombPlaced(id, c)).value;
            j.bombs.Keys == i.bombs.Keys + {id} && j.bombs[id] == Bomb(c, i.bombTimer) &&
            forall k :: k in i.bombs ==> j.bombs[k] == i.bombs[k]
  {
    assert Insert(i.bombs, id, Bomb(c, i.bombTimer)) == i.bombs[id := Bomb(c, i.bombTimer)];
  }

  /** A turn's events get through exactly when every robot they destroy has a score, and then leave
      the replica with the world's blocks and bombs and one more point per explosion listed. */
  lemma {:induction false} TurnApplies(i: GameInfo, w: World, events: seq<Event>)
    requires SameBoard(i, w)
    ensures ApplyAllToInfo(i, events).Some? <==> Hit(events) <= i.scores.Keys
    ensures ApplyAllToInfo(i, events).Some? ==>
              var j := ApplyAllToInfo(i, events).value;
              && SameBoard(j, Apply(w, events)) && j.positions == ShowAll(i.positions, events)
              && Untouched(i, j) && j.scores.Keys == i.scores.Keys && (Timed(i) ==> Timed(j))
              && (forall q :: q in i.scores && i.scores[q] + Count(events, Lists(q)) < 0x1_0000_0000 ==>
                    j.scores[q] == i.scores[q] + Count(events, Lists(q)))
  {
    if events == [] {
      assert Hit(events) == {};
    } else {
      var n, e := |events| - 1, events[|events| - 1];
      hide Apply, Hit, ShowAll, Show;
      TurnApplies(i, w, events[..n]);
      HitLast(events);
      if ApplyAllToInfo(i, events[..n]).Some? {
        EventApplies(ApplyAllToInfo(i, events[..n]).value, Apply(w, events[..n]), e);
        ApplyLast(w, events);
        ShowLast(i.positions, events);
      }
    }
  }

  lemma HitLast(events: seq<Event>)
    requires events != []
    ensures var e := events[|events| - 1];
            Hit(events) == Hit(events[..|events| - 1]) + if e.BombExploded? then Elems(e.robots) else {}
  {
    assert events == events[..|events| - 1] + [events[|events| - 1]];
  }

  lemma ApplyLast(w: World, events: seq<Event>)
    requires events != []
    ensures Apply(w, events) == ApplyEvent(Apply(w, events[..|events| - 1]), events[|events| - 1])
  {
  }

  lemma EventApplies(i: GameInfo, w: World, e: Event)
    requires SameBoard(i, w)
    ensures ApplyToInfo(i, e).Some? <==> (e.BombExploded? ==> Elems(e.robots) <= i.scores.Keys)
    ensures ApplyToInfo(i, e).Some? ==>
              var j := ApplyToInfo(i, e).value;
              && SameBoard(j, ApplyEvent(w, e)) && j.positions == Show(i.positions, e)
              && Untouched(i, j) && j.scores.Keys == i.scores.Keys && (Timed(i) ==> Timed(j))
              && (forall q :: q in i.scores && i.scores[q] + Flag(Lists(q)(e)) < 0x1_0000_0000 ==>
                    j.scores[q] == i.scores[q] + Flag(Lists(q)(e)))
  {
    match e
    case BombPlaced(id, c) => assert Cells(Insert(i.bombs, id, Bomb(c, i.bombTimer))) == Insert(w.bombs, id, c);
    case BombExploded(id, robots, blocks) => assert Cells(i.bombs - {id}) == w.bombs - {id};
    case _ =>
  }

  // ---------- positions ----------

  /** As written the replica keeps a robot's first cell (game-messages.h:185): an event leaves its
      positions right exactly when it moves no robot that already stands on another cell. */
  lemma PositionsRight(i: GameInfo, w: World, e: Event)
    requires i.positions == w.positions && ApplyToInfo(i, e).Some?
    ensures ApplyToInfo(i, e).value.positions == ApplyEvent(w, e).positions <==>
            (e.PlayerMoved? && e.player in i.positions ==> i.positions[e.player] == e.position)
  {
    if e.PlayerMoved? && e.player in i.positions && i.positions[e.player] != e.position {
      assert ApplyToInfo(i, e).value.positions[e.player] != ApplyEvent(w, e).positions[e.player];
    }
  }

  /** The first step any robot takes is already lost. */
  lemma StepIsLost()
    ensures var c, d := Position(0, 0), Position(0, 1);
            var i := NewGame(LobbyInfo([], 1, 2, 2, 1, 1, 1, map[0 := Player([], [])]), map[]);
            var events := [PlayerMoved(0, c), PlayerMoved(0, d)];
            && ApplyAllToInfo(i, events).Some?
            && ApplyAllToInfo(i, events).value.positions == map[0 := c]
            && Apply(EMPTY_WORLD, events).positions == map[0 := d]
  {
    var c, d := Position(0, 0), Position(0, 1);
    var i := NewGame(LobbyInfo([], 1, 2, 2, 1, 1, 1, map[0 := Player([], [])]), map[]);
    var one, two := [PlayerMoved(0, c)], [PlayerMoved(0, c), PlayerMoved(0, d)];
    assert two[..1] == one && one[..0] == [];
    assert ApplyAllToInfo(i, one[..0]) == Some(i);
    assert ApplyAllToInfo(i, one) == Some(i.(positions := map[0 := c]));
    assert ApplyAllToInfo(i, two) == ApplyToInfo(i.(positions := map[0 := c]), two[1]);
    assert Apply(EMPTY_WORLD, one).positions == map[0 := c];
  }
}
