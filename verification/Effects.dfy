/** What each client message does, in terms of the rules alone: who joins as whom, which actions take
    effect, and what then changes. No function of the model says here what the new state is. */
module Effects {
  import opened Types
  import opened Blast
  import opened GameSpec
  import opened Invariant
  import opened TurnLog
  import opened Replay
  import opened BombLife
  import opened Grammar
  import opened Scoring
  import opened Protocol
  import opened Runs

  // ---------- joining ----------

  /** The new player's entry everywhere, and nothing else touched. */
  ghost predicate Enters(g: Game, slot: nat, name: seq<u8>, address: seq<u8>, r: Game) {
    var id := g.nextPlayer;
    && r.players.Keys == g.players.Keys + {id}
    && r.players[id].name == name && r.players[id].address == address
    && (forall q :: q in g.players ==> r.players[q] == g.players[q])
    && r.slots == g.slots[slot := id]
    && r.scores == g.scores[id := 0]
    && r.nextPlayer == (id + 1) % 256
  }

  lemma AcceptEnters(g: Game, slot: nat, name: seq<u8>, address: seq<u8>)
    requires g.nextPlayer !in g.players && g.nextPlayer !in g.scores
    ensures var r := Accept(g, slot, name, address);
            && Enters(g, slot, name, address, r) && |r.players| == |g.players| + 1
            && r.out == g.out + [ToAll(AcceptedPlayer(g.nextPlayer, r.players[g.nextPlayer]))]
            && r == g.(players := r.players, slots := r.slots, scores := r.scores, nextPlayer := r.nextPlayer,
                       out := r.out)
  {
    hide Insert;
    NewKey(g.players, g.nextPlayer, Player(name, address));
    NewKey(g.scores, g.nextPlayer, 0);
  }

  lemma NewKey<V>(m: map<u8, V>, k: u8, v: V)
    requires k !in m
    ensures Insert(m, k, v) == m[k := v] && m[k := v].Keys == m.Keys + {k} && |m[k := v]| == |m| + 1
  {
  }

  lemma StartKeepsPlayers(p: Params, rng: Rng, g: Game)
    requires p.Valid() && !g.started && Shaped(g)
    ensures var r := StartGameplay(p, rng, g);
            && r.started && r.players == g.players && r.slots == g.slots && r.scores == g.scores
            && r.nextPlayer == g.nextPlayer && r.out == g.out + [ToAll(GameStarted(g.players))]
  {
    hide SeedPlayers, SeedBlocks;
  }

  /** In the lobby whoever asks becomes the next player, under the name sent and the address recorded
      for the slot, and everybody is told so; with the last one the game starts. In play nothing happens. */
  lemma JoinTakesEffect(p: Params, rng: Rng, g: Game, slot: nat, name: seq<u8>, address: seq<u8>)
    requires p.Valid() && Shaped(g)
    ensures g.started ==> HandleJoin(p, rng, g, slot, name, address) == g
    ensures !g.started && g.nextPlayer !in g.players && g.nextPlayer !in g.scores ==>
              var r := HandleJoin(p, rng, g, slot, name, address);
              && Enters(g, slot, name, address, r)
              && (r.started <==> |g.players| + 1 == p.playersCount)
              && r.out == g.out + [ToAll(AcceptedPlayer(g.nextPlayer, r.players[g.nextPlayer]))] +
                          (if r.started then [ToAll(GameStarted(r.players))] else [])
              && (!r.started ==> r == g.(players := r.players, slots := r.slots, scores := r.scores,
                                         nextPlayer := r.nextPlayer, out := r.out))
  {
    hide StartGameplay, Accept;
    if !g.started && g.nextPlayer !in g.players && g.nextPlayer !in g.scores {
      var a := Accept(g, slot, name, address);
      AcceptEnters(g, slot, name, address);
      assert a.out + [] == a.out;
      if |a.players| == p.playersCount { StartKeepsPlayers(p, rng, a); }
    }
  }

  /** Player `q` came from the `k`-th step: its name, its address, and its slot if it still has one. */
  ghost predicate CameFrom(steps: seq<Step>, k: nat, g: Game, q: u8)
    requires q in g.players
  {
    && k < |steps| && steps[k].Receive? && steps[k].message.Join?
    && g.players[q].name == steps[k].message.name && g.players[q].address == steps[k].address
    && forall i :: i in g.slots && g.slots[i] == q ==> i == steps[k].slot
  }

  ghost predicate AllCameFrom(steps: seq<Step>, g: Game) {
    forall q :: q in g.players ==> exists k :: CameFrom(steps, k, g, q)
  }

  lemma SameOrigins(steps: seq<Step>, step: Step, g: Game, r: Game)
    requires AllCameFrom(steps, g) && r.players == g.players && r.slots == g.slots
    ensures AllCameFrom(steps + [step], r)
  {
    forall q | q in r.players ensures exists k :: CameFrom(steps + [step], k, r, q) {
      var k :| CameFrom(steps, k, g, q);
      assert CameFrom(steps + [step], k, r, q);
    }
  }

  lemma NewOrigin(steps: seq<Step>, step: Step, g: Game, r: Game)
    requires AllCameFrom(steps, g) && step.Receive? && step.message.Join? && g.nextPlayer !in g.players
    requires forall i :: i in g.slots ==> g.slots[i] != g.nextPlayer
    requires Enters(g, step.slot, step.message.name, step.address, r)
    ensures AllCameFrom(steps + [step], r)
  {
    forall q | q in r.players ensures exists k :: CameFrom(steps + [step], k, r, q) {
      if q == g.nextPlayer {
        assert CameFrom(steps + [step], |steps|, r, q);
      } else {
        var k :| CameFrom(steps, k, g, q);
        assert CameFrom(steps + [step], k, r, q);
      }
    }
  }

  lemma LobbyIgnores(p: Params, rng: Rng, g: Game, slot: nat, m: ClientMessage, address: seq<u8>, stale: Position)
    requires p.Valid() && Shaped(g) && !g.started && !m.Join?
    requires Handle(p, rng, g, slot, m, address, stale).Running?
    ensures Handle(p, rng, g, slot, m, address, stale).game == g
  {
  }

  /** Only joining and the end of a game change who plays. */
  lemma PlayersFrame(p: Params, rng: Rng, s: Server, step: Step, s': Server)
    requires Inv(p, s) && Shaped(s.game) && Enabled(p, s, step) && Next(p, rng, s, step) == Alive(s')
    requires !(step.Receive? && step.message.Join? && !s.game.started)
    ensures s'.game.players == map[] || (s'.game.players == s.game.players && s'.game.slots == s.game.slots)
  {
    hide BeginTurn, CloseTurn, Greeting, Handle, Record, PlayersInv, PlayingInv;
    match step
    case StartRound =>
      if s.game.started { BeginTurnLog(p, s.game, BeginTurn(p, s.game)); }
    case AcceptClient =>
    case Receive(slot, m, address, stale) =>
      RecordsGame(s, slot, m, Handle(p, rng, s.game, slot, m, address, stale).game);
      if s.game.started {
        ActionFrame(p, rng, s.game, slot, m, address, stale);
      } else {
        LobbyIgnores(p, rng, s.game, slot, m, address, stale);
      }
    case EndRound =>
      if s.game.started { CloseTurnLog(p, rng, s.game, CloseTurn(p, rng, s.game)); }
    case Continue =>
  }

  lemma RecordsGame(s: Server, slot: nat, m: ClientMessage, g: Game)
    ensures Record(s, slot, m, g).game == g
  {
  }

  lemma JoinNext(p: Params, rng: Rng, s: Server, step: Step, s': Server)
    requires p.Valid() && Shaped(s.game) && Enabled(p, s, step) && Next(p, rng, s, step) == Alive(s')
    requires step.Receive? && step.message.Join?
    ensures s'.game == HandleJoin(p, rng, s.game, step.slot, step.message.name, step.address)
  {
    hide HandleJoin;
  }

  lemma NextIdIsFree(p: Params, g: Game)
    requires PlayersInv(p, g)
    ensures g.nextPlayer !in g.players && g.nextPlayer !in g.scores
    ensures forall i :: i in g.slots ==> g.slots[i] != g.nextPlayer
  {
    assert g.nextPlayer !in g.scores.Keys;
  }

  /** In every run every Join sent to the lobby makes a player. */
  lemma EveryJoinEnters(p: Params, rng: Rng, s: Server, step: Step, s': Server)
    requires p.Valid() && Reachable(p, rng, s) && !s.game.started && Shaped(s.game) && Enabled(p, s, step)
    requires step.Receive? && step.message.Join? && Next(p, rng, s, step) == Alive(s')
    ensures Enters(s.game, step.slot, step.message.name, step.address, s'.game)
    ensures var told := AcceptedPlayer(s.game.nextPlayer, Player(step.message.name, step.address));
            s'.game.out == s.game.out + [ToAll(told)] +
                           (if s'.game.started then [ToAll(GameStarted(s'.game.players))] else [])
    ensures s'.game.started <==> |s.game.players| + 1 == p.playersCount
  {
    hide Reachable, Next, Enabled, HandleJoin, PlayersInv, PlayingInv, LifeInv, Mirrored, GrammarInv, TallyInv, TalkInv;
    EverythingHolds(p, rng, s);
    NextIdIsFree(p, s.game);
    JoinTakesEffect(p, rng, s.game, step.slot, step.message.name, step.address);
    JoinNext(p, rng, s, step, s');
  }

  lemma OriginsNext(p: Params, rng: Rng, before: seq<Step>, s: Server, step: Step, s': Server)
    requires Everything(p, s) && Enabled(p, s, step) && Shaped(s.game) && Next(p, rng, s, step) == Alive(s')
    requires AllCameFrom(before, s.game)
    ensures AllCameFrom(before + [step], s'.game)
  {
    hide LifeInv, Mirrored, GrammarInv, TallyInv, TalkInv;
    hide AllCameFrom, Next, Enabled, HandleJoin, Enters, PlayingInv, PlayersInv;
    if step.Receive? && step.message.Join? && !s.game.started {
      var g, m := s.game, step.message;
      NextIdIsFree(p, g);
      JoinTakesEffect(p, rng, g, step.slot, m.name, step.address);
      JoinNext(p, rng, s, step, s');
      NewOrigin(before, step, g, s'.game);
    } else {
      PlayersFrame(p, rng, s, step, s');
      if s'.game.players == map[] {
        NobodyCame(before + [step], s'.game);
      } else {
        SameOrigins(before, step, s.game, s'.game);
      }
    }
  }

  lemma NobodyCame(steps: seq<Step>, g: Game)
    requires g.players == map[]
    ensures AllCameFrom(steps, g)
  {
  }

  lemma {:induction false} OriginsLead(p: Params, rng: Rng, before: seq<Step>, s: Server, steps: seq<Step>, s': Server)
    requires p.Valid() && Everything(p, s) && Leads(p, rng, s, steps, s') && AllCameFrom(before, s.game)
    ensures AllCameFrom(before + steps, s'.game)
    decreases |steps|
  {
    hide AllCameFrom, Everything, Enabled, Next, Shaped;
    if steps == [] {
      assert before + steps == before;
    } else {
      var s1 := Next(p, rng, s, steps[0]).server;
      EverythingNext(p, rng, s, steps[0]);
      OriginsNext(p, rng, before, s, steps[0], s1);
      OriginsLead(p, rng, before + [steps[0]], s1, steps[1..], s');
      assert before + [steps[0]] + steps[1..] == before + steps;
    }
  }

  /** Every player of every run is there by a Join of that run, under the name it carried and the
      address recorded for its slot. */
  lemma EveryPlayerJoined(p: Params, rng: Rng, steps: seq<Step>, s: Server, q: u8)
    requires p.Valid() && Leads(p, rng, INITIAL_SERVER, steps, s) && q in s.game.players
    ensures exists k :: CameFrom(steps, k, s.game, q)
  {
    hide CameFrom, Leads;
    EverythingInitially(p);
    NobodyCame([], INITIAL_GAME);
    OriginsLead(p, rng, [], INITIAL_SERVER, steps, s);
    assert [] + steps == steps;
  }

  // ---------- acting ----------

  /** `c` is the cell next to `o` in direction `d` as it is numbered on the wire: up, right, down, left. */
  predicate Beside(o: Position, d: u8, c: Position) {
    (d == 0 && c.x == o.x && c.y == o.y + 1) || (d == 1 && c.x == o.x + 1 && c.y == o.y) ||
    (d == 2 && c.x == o.x && c.y == o.y - 1) || (d == 3 && c.x == o.x - 1 && c.y == o.y)
  }

  /** A robot can stand there. */
  predicate Free(p: Params, g: Game, c: Position) {
    c.x < p.sizeX && c.y < p.sizeY && c !in g.blocks
  }

  /** The current turn has `e` after its events, and the log is otherwise the same. */
  predicate Logs(g: Game, e: Event, r: Game) {
    && |r.turns| == |g.turns| == g.turn + 1
    && r.turns[..g.turn] == g.turns[..g.turn]
    && r.turns[g.turn] == TurnInfo(g.turns[g.turn].turn, g.turns[g.turn].events + [e])
  }

  lemma AddLogs(g: Game, e: Event, r: Game)
    requires |g.turns| == g.turn + 1 && r.turns == AddEvent(g.turns, g.turn, e)
    ensures Logs(g, e, r)
  {
  }

  /** The cell the engine computes is the cell beside, unless that would be off the board. */
  lemma StepIsBeside(p: Params, o: Position, d: u8, c: Position)
    requires OnBoard(p, o) && d <= 3
    ensures Beside(o, d, c) && OnBoard(p, c) ==> c == Cell(o, d, 1)
    ensures OnBoard(p, Cell(o, d, 1)) ==> Beside(o, d, Cell(o, d, 1))
  {
  }

  /** A Move takes a live robot to the free cell beside it, if there is one, and does nothing else. */
  lemma MoveTakesEffect(p: Params, rng: Rng, g: Game, slot: nat, d: u8, address: seq<u8>, stale: Position)
    requires p.Valid() && g.started && PlayersInv(p, g) && PlayingInv(p, g)
    ensures slot !in g.slots || g.slots[slot] in g.toDestroy ==>
              Handle(p, rng, g, slot, Move(d), address, stale) == Running(g)
    ensures slot in g.slots && g.slots[slot] !in g.toDestroy ==>
              var q := g.slots[slot];
              && q in g.positions
              && (forall c :: (if d <= 3 then Beside(g.positions[q], d, c) else c == stale) && Free(p, g, c) ==>
                    var r := Handle(p, rng, g, slot, Move(d), address, stale);
                    && r.Running? && Logs(g, PlayerMoved(q, c), r.game)
                    && r.game == g.(positions := g.positions[q := c], turns := r.game.turns))
              && ((forall c :: (if d <= 3 then Beside(g.positions[q], d, c) else c == stale) ==> !Free(p, g, c)) ==>
                    Handle(p, rng, g, slot, Move(d), address, stale) == Running(g))
  {
    hide Cell;
    if slot in g.slots && g.slots[slot] !in g.toDestroy {
      var q := g.slots[slot];
      assert q in g.players.Keys && q in g.positions.Keys;
      var o := g.positions[q];
      var target := Target(o, d, stale);
      if d <= 3 { StepIsBeside(p, o, d, target); }
      forall c | (if d <= 3 then Beside(o, d, c) else c == stale) && Free(p, g, c) ensures c == target {
        if d <= 3 { StepIsBeside(p, o, d, c); }
      }
      if Free(p, g, target) {
        AddLogs(g, PlayerMoved(q, target), HandleMove(p, g, slot, d, stale).game);
      }
    }
  }

  /** A live robot always puts a bomb under itself, with the next id and the whole timer. */
  lemma BombTakesEffect(p: Params, rng: Rng, g: Game, slot: nat, address: seq<u8>, stale: Position)
    requires p.Valid() && g.started && PlayersInv(p, g) && PlayingInv(p, g) && g.nextBomb !in g.bombs
    ensures var r := Handle(p, rng, g, slot, PlaceBomb, address, stale);
            if slot in g.slots && g.slots[slot] !in g.toDestroy then
              && g.slots[slot] in g.positions
              && var o := g.positions[g.slots[slot]];
              && r.Running? && Logs(g, BombPlaced(g.nextBomb, o), r.game)
              && r.game == g.(bombs := g.bombs[g.nextBomb := Bomb(o, p.bombTimer)],
                              nextBomb := (g.nextBomb + 1) % 4294967296, turns := r.game.turns)
            else r == Running(g)
  {
    if slot in g.slots && g.slots[slot] !in g.toDestroy {
      var q := g.slots[slot];
      assert q in g.players.Keys && q in g.positions.Keys;
      AddLogs(g, BombPlaced(g.nextBomb, g.positions[q]), HandlePlaceBomb(p, g, slot).game);
    }
  }

  /** And always a block. */
  lemma BlockTakesEffect(p: Params, rng: Rng, g: Game, slot: nat, address: seq<u8>, stale: Position)
    requires p.Valid() && g.started && PlayersInv(p, g) && PlayingInv(p, g)
    ensures var r := Handle(p, rng, g, slot, PlaceBlock, address, stale);
            if slot in g.slots && g.slots[slot] !in g.toDestroy then
              && g.slots[slot] in g.positions
              && var o := g.positions[g.slots[slot]];
              && r.Running? && Logs(g, BlockPlaced(o), r.game)
              && r.game == g.(blocks := g.blocks + {o}, turns := r.game.turns)
            else r == Running(g)
  {
    if slot in g.slots && g.slots[slot] !in g.toDestroy {
      var q := g.slots[slot];
      assert q in g.players.Keys && q in g.positions.Keys;
      AddLogs(g, BlockPlaced(g.positions[q]), HandlePlaceBlock(g, slot).game);
    }
  }

  // ---------- in every run ----------

  /** The event the rules give a message: none from a slot without a player or whose robot was hit this
      turn; else a bomb or a block where the robot stands, or a move to the free cell beside it. */
  predicate Ruled(p: Params, g: Game, slot: nat, m: ClientMessage, stale: Position, e: Event) {
    && slot in g.slots && g.slots[slot] !in g.toDestroy && g.slots[slot] in g.positions
    && var q, o := g.slots[slot], g.positions[g.slots[slot]];
       match m
       case Join(_) => false
       case PlaceBomb => e == BombPlaced(g.nextBomb, o)
       case PlaceBlock => e == BlockPlaced(o)
       case Move(d) =>
         && e.PlayerMoved? && e.player == q && Free(p, g, e.position)
         && (if d <= 3 then Beside(o, d, e.position) else e.position == stale)
  }

  function BoardOf(g: Game): World { World(g.positions, g.blocks, Cells(g.bombs)) }

  /** In every run a message in play does exactly what the rules give it: it writes that event and does
      to the board what the event means, or it changes nothing. */
  lemma EveryActionIsRuled(p: Params, rng: Rng, s: Server, slot: nat, m: ClientMessage, address: seq<u8>,
      stale: Position, s': Server)
    requires p.Valid() && Reachable(p, rng, s) && s.game.started && Enabled(p, s, Receive(slot, m, address, stale))
    requires Shaped(s.game) && Next(p, rng, s, Receive(slot, m, address, stale)) == Alive(s')
    ensures forall e :: Ruled(p, s.game, slot, m, stale, e) ==>
              Logs(s.game, e, s'.game) && BoardOf(s'.game) == ApplyEvent(BoardOf(s.game), e)
    ensures (forall e :: !Ruled(p, s.game, slot, m, stale, e)) ==> s'.game == s.game
    ensures s'.game == s.game.(positions := s'.game.positions, blocks := s'.game.blocks, bombs := s'.game.bombs,
                               nextBomb := s'.game.nextBomb, turns := s'.game.turns)
  {
    hide Reachable, Handle, Next, LifeInv, GrammarInv, TallyInv, TalkInv, Mirrored, PlayersInv, PlayingInv, Logs, Free,
         ApplyEvent;
    var g := s.game;
    EverythingHolds(p, rng, s);
    FreshBomb(p, s);
    HandledGame(p, rng, s, slot, m, address, stale, s');
    match m
    case Join(name) => JoinDoesNothing(p, rng, g, slot, name, address, stale);
    case PlaceBomb => BombRuled(p, rng, g, slot, address, stale, s'.game);
    case PlaceBlock => BlockRuled(p, rng, g, slot, address, stale, s'.game);
    case Move(d) => MoveRuled(p, rng, g, slot, d, address, stale, s'.game);
  }

  lemma HandledGame(p: Params, rng: Rng, s: Server, slot: nat, m: ClientMessage, address: seq<u8>, stale: Position,
      s': Server)
    requires p.Valid() && Shaped(s.game) && Enabled(p, s, Receive(slot, m, address, stale))
    requires Next(p, rng, s, Receive(slot, m, address, stale)) == Alive(s')
    ensures Handle(p, rng, s.game, slot, m, address, stale) == Running(s'.game)
  {
    hide Handle;
  }

  lemma FreshBomb(p: Params, s: Server)
    requires LifeInv(p, s) && s.game.started
    ensures s.game.nextBomb !in s.game.bombs
  {
    hide LogInv, CapacityInv;
    BombsBelow(p, s.game, s.born);
  }

  lemma JoinDoesNothing(p: Params, rng: Rng, g: Game, slot: nat, name: seq<u8>, address: seq<u8>, stale: Position)
    requires p.Valid() && Shaped(g) && g.started
    ensures Handle(p, rng, g, slot, Join(name), address, stale) == Running(g)
  {
  }

  lemma BombRuled(p: Params, rng: Rng, g: Game, slot: nat, address: seq<u8>, stale: Position, r: Game)
    requires p.Valid() && g.started && PlayersInv(p, g) && PlayingInv(p, g) && g.nextBomb !in g.bombs
    requires Handle(p, rng, g, slot, PlaceBomb, address, stale) == Running(r)
    ensures forall e :: Ruled(p, g, slot, PlaceBomb, stale, e) ==>
              Logs(g, e, r) && BoardOf(r) == ApplyEvent(BoardOf(g), e)
    ensures (forall e :: !Ruled(p, g, slot, PlaceBomb, stale, e)) ==> r == g
    ensures r == g.(bombs := r.bombs, nextBomb := r.nextBomb, turns := r.turns)
  {
    hide PlayersInv, PlayingInv, Handle, Logs;
    BombTakesEffect(p, rng, g, slot, address, stale);
    if slot in g.slots && g.slots[slot] !in g.toDestroy {
      var o := g.positions[g.slots[slot]];
      assert Ruled(p, g, slot, PlaceBomb, stale, BombPlaced(g.nextBomb, o));
      assert Cells(r.bombs) == Cells(g.bombs)[g.nextBomb := o];
    }
  }

  lemma BlockRuled(p: Params, rng: Rng, g: Game, slot: nat, address: seq<u8>, stale: Position, r: Game)
    requires p.Valid() && g.started && PlayersInv(p, g) && PlayingInv(p, g)
    requires Handle(p, rng, g, slot, PlaceBlock, address, stale) == Running(r)
    ensures forall e :: Ruled(p, g, slot, PlaceBlock, stale, e) ==>
              Logs(g, e, r) && BoardOf(r) == ApplyEvent(BoardOf(g), e)
    ensures (forall e :: !Ruled(p, g, slot, PlaceBlock, stale, e)) ==> r == g
    ensures r == g.(blocks := r.blocks, turns := r.turns)
  {
    hide PlayersInv, PlayingInv, Handle, Logs, Cells;
    BlockTakesEffect(p, rng, g, slot, address, stale);
    if slot in g.slots && g.slots[slot] !in g.toDestroy {
      assert Ruled(p, g, slot, PlaceBlock, stale, BlockPlaced(g.positions[g.slots[slot]]));
    }
  }

  lemma MoveRuled(p: Params, rng: Rng, g: Game, slot: nat, d: u8, address: seq<u8>, stale: Position, r: Game)
    requires p.Valid() && g.started && PlayersInv(p, g) && PlayingInv(p, g)
    requires Handle(p, rng, g, slot, Move(d), address, stale) == Running(r)
    ensures forall e :: Ruled(p, g, slot, Move(d), stale, e) ==>
              Logs(g, e, r) && BoardOf(r) == ApplyEvent(BoardOf(g), e)
    ensures (forall e :: !Ruled(p, g, slot, Move(d), stale, e)) ==> r == g
    ensures r == g.(positions := r.positions, turns := r.turns)
  {
    hide PlayersInv, PlayingInv, Handle, Logs, Cells, Free, Beside;
    MoveTakesEffect(p, rng, g, slot, d, address, stale);
    if slot in g.slots && g.slots[slot] !in g.toDestroy {
      var q, o := g.slots[slot], g.positions[g.slots[slot]];
      if c :| (if d <= 3 then Beside(o, d, c) else c == stale) && Free(p, g, c) {
        assert Ruled(p, g, slot, Move(d), stale, PlayerMoved(q, c));
      }
    }
  }
}
