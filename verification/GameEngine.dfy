/** The engine itself (game-engine.cpp): the object whose methods update its fields in place, each
    proved to compute the corresponding function of GameSpec on the object's abstract value. The four
    arms of handle_explosion, written out four times in the source, are one method here. */
module GameEngine {
  import opened Types
  import opened Ordered
  import opened Blast
  import opened GameSpec
  import opened EngineLoops
  import opened ClientMessages
  import opened TcpHandling
  import opened Runs
  import opened Rounds

  class Engine {
    const params: Params
    const rng: Rng
    const tcp: TcpHandler
    var started: bool
    var players: map<u8, Player>
    var scores: map<u8, u32>
    var positions: map<u8, Position>
    var blocks: set<Position>
    var slots: map<nat, u8>
    var nextPlayer: u8
    var turn: u16
    var toErase: seq<Position>
    var toDestroy: set<u8>
    var turns: seq<TurnInfo>
    var bombs: map<u32, Bomb>
    var nextBomb: u32
    var draws: nat
    var out: seq<Outgoing>

    /** The engine's abstract value. */
    function View(): Game
      reads this
    {
      Game(started, players, scores, positions, blocks, slots, nextPlayer, turn, toErase, toDestroy, turns,
           bombs, nextBomb, draws, out)
    }

    constructor (params: Params, rng: Rng, tcp: TcpHandler)
      ensures View() == INITIAL_GAME && this.params == params && this.rng == rng && this.tcp == tcp
    {
      this.params, this.rng, this.tcp := params, rng, tcp;
      started, players, scores, positions, blocks, slots := false, map[], map[], map[], {}, map[];
      nextPlayer, turn, toErase, toDestroy, turns := 0, 0, [], {}, [];
      bombs, nextBomb, draws, out := map[], 0, 0, [];
    }

    method AddEventTo(k: nat, e: Event)
      requires k < |turns|
      modifies this`turns
      ensures turns == AddEvent(old(turns), k, e)
    {
      turns := turns[k := TurnInfo(turns[k].turn, turns[k].events + [e])];
    }

    // ---------- handle_explosion ----------

    /** Lists the robots on a cell and marks them for destruction. */
    method HitCell(c: Position, before: seq<u8>) returns (robots: seq<u8>)
      modifies this`toDestroy
      ensures robots == before + Sorted8(RobotsAt(positions, c))
      ensures toDestroy == old(toDestroy) + RobotsAt(positions, c)
    {
      hide Standing, Sorted, RobotsAt, Elems, Ascending;
      robots := before;
      var keys := Sorted8(positions.Keys);
      ghost var hit: seq<u8> := [];
      assert Standing(positions, c, keys[..0]) == [] by { NobodyYet(positions, c); }
      ElemsStanding(positions, c);
      for k := 0 to |keys|
        invariant hit == Standing(positions, c, keys[..k])
        invariant robots == before + hit
        invariant toDestroy == old(toDestroy) + Elems(hit)
      {
        StandingNext(positions, c, keys, k);
        if positions[keys[k]] == c {
          Associates(before, hit, [keys[k]]);
          ElemsConcat(hit, [keys[k]]);
          ElemsOne(keys[k]);
          robots := robots + [keys[k]];
          toDestroy := toDestroy + {keys[k]};
          hit := hit + [keys[k]];
        }
      }
      assert keys[..|keys|] == keys;
      StandingIsSorted(positions, c);
      ElemsStanding(positions, c);
    }

    /** One step of one arm. The go-flag says that the arm has been open so far. */
    method ProbeArm(o: Position, d: u8, i: u16, go: bool, robots: seq<u8>, torn: seq<Position>)
      returns (go': bool, robots': seq<u8>, torn': seq<Position>)
      requires i >= 1 && go == Open(params, blocks, o, d, i - 1)
      modifies this`toDestroy, this`toErase
      ensures go' == Open(params, blocks, o, d, i)
      ensures robots' == robots + RobotsOn(positions, Arm(params, blocks, o, d, i))
      ensures torn' == torn + BlocksOn(blocks, Arm(params, blocks, o, d, i))
      ensures toDestroy == old(toDestroy) + Elems(RobotsOn(positions, Arm(params, blocks, o, d, i)))
      ensures toErase == old(toErase) + BlocksOn(blocks, Arm(params, blocks, o, d, i))
    {
      hide Open, OnBoard, Cell, RobotsOn, BlocksOn, RobotsAt;
      go', robots', torn' := go, robots, torn;
      OpenNext(params, blocks, o, d, i);
      OneCellLists(positions, blocks, Cell(o, d, i));
      if go {
        var c := Cell(o, d, i);
        if OnBoard(params, c) {
          robots' := HitCell(c, robots);
          if c in blocks {
            torn' := torn' + [c];
            toErase := toErase + [c];
            go' := false;
          }
        } else {
          go' := false;
        }
      }
    }

    method ProbeRing(o: Position, i: u16, flags: seq<bool>, robots: seq<u8>, torn: seq<Position>)
      returns (flags': seq<bool>, robots': seq<u8>, torn': seq<Position>)
      requires i >= 1 && flags == Flags(params, blocks, o, i - 1)
      requires robots == RobotsOn(positions, Reached(params, blocks, o, i - 1))
               && torn == BlocksOn(blocks, Reached(params, blocks, o, i - 1))
      modifies this`toDestroy, this`toErase
      ensures flags' == Flags(params, blocks, o, i)
      ensures robots' == RobotsOn(positions, Reached(params, blocks, o, i))
              && torn' == BlocksOn(blocks, Reached(params, blocks, o, i))
      ensures toDestroy == old(toDestroy) + Elems(RobotsOn(positions, Ring(params, blocks, o, i)))
      ensures toErase == old(toErase) + BlocksOn(blocks, Ring(params, blocks, o, i))
    {
      hide Open, Arm, Ring, Rings, RobotsOn, BlocksOn;
      ghost var d, u := Arm(params, blocks, o, DOWN, i), Arm(params, blocks, o, UP, i);
      ghost var l, r := Arm(params, blocks, o, LEFT, i), Arm(params, blocks, o, RIGHT, i);
      RingLists(params, positions, blocks, o, i);
      Chain(robots, RobotsOn(positions, d), RobotsOn(positions, u), RobotsOn(positions, l), RobotsOn(positions, r));
      Chain(torn, BlocksOn(blocks, d), BlocksOn(blocks, u), BlocksOn(blocks, l), BlocksOn(blocks, r));
      Chain(toErase, BlocksOn(blocks, d), BlocksOn(blocks, u), BlocksOn(blocks, l), BlocksOn(blocks, r));
      var down, up, left, right := flags[0], flags[1], flags[2], flags[3];
      down, robots', torn' := ProbeArm(o, DOWN, i, down, robots, torn);
      up, robots', torn' := ProbeArm(o, UP, i, up, robots', torn');
      left, robots', torn' := ProbeArm(o, LEFT, i, left, robots', torn');
      right, robots', torn' := ProbeArm(o, RIGHT, i, right, robots', torn');
      flags' := [down, up, left, right];
    }

    /** All four arms, in step: down, up, left, right at distance 1, then at distance 2, and so on. */
    method ProbeArms(o: Position, here: seq<u8>) returns (robots: seq<u8>, torn: seq<Position>)
      requires params.explosionRadius < 0xFFFF && o !in blocks
      requires here == RobotsOn(positions, [o]) && Elems(here) <= toDestroy
      modifies this`toDestroy, this`toErase
      ensures robots == RobotsOn(positions, Reached(params, blocks, o, params.explosionRadius))
      ensures torn == BlocksOn(blocks, Reached(params, blocks, o, params.explosionRadius))
      ensures toDestroy == old(toDestroy) + Elems(robots)
      ensures toErase == old(toErase) + torn
    {
      hide Open, RobotsOn, BlocksOn, Elems, Reached, Flags;
      FirstRound(params, positions, blocks, o);
      robots, torn := here, [];
      var flags := [true, true, true, true];
      var i: u16 := 1;
      while i <= params.explosionRadius
        invariant 1 <= i <= params.explosionRadius + 1
        invariant flags == Flags(params, blocks, o, i - 1)
        invariant robots == RobotsOn(positions, Reached(params, blocks, o, i - 1))
        invariant torn == BlocksOn(blocks, Reached(params, blocks, o, i - 1))
        invariant toDestroy == old(toDestroy) + Elems(robots)
        invariant toErase == old(toErase) + torn
        decreases params.explosionRadius + 1 - i
      {
        ListsGrow(params, positions, blocks, o, i);
        Associates(old(toErase), torn, BlocksOn(blocks, Ring(params, blocks, o, i)));
        flags, robots, torn := ProbeRing(o, i, flags, robots, torn);
        i := Add16(i, 1);
      }
    }

    /** Marks everything in the blast and lists it; the lists go into the event. */
    method Burst(o: Position) returns (robots: seq<u8>, torn: seq<Position>)
      requires params.explosionRadius < 0xFFFF
      modifies this`toDestroy, this`toErase
      ensures robots == RobotsOn(positions, Visited(params, blocks, o))
      ensures torn == BlocksOn(blocks, Visited(params, blocks, o))
      ensures toDestroy == old(toDestroy) + Elems(robots) && toErase == old(toErase) + torn
    {
      hide Reached, Rings, RobotsOn, BlocksOn, RobotsAt, Elems, Visited;
      VisitedCells(params, positions, blocks, o);
      OneCellLists(positions, blocks, o);
      robots := HitCell(o, []);
      assert [] + Sorted8(RobotsAt(positions, o)) == Sorted8(RobotsAt(positions, o));
      torn := [];
      if o in blocks {
        torn := [o];
        toErase := toErase + [o];
      } else {
        robots, torn := ProbeArms(o, robots);
      }
    }

    method HandleExplosion(id: u32, bomb: Bomb)
      requires params.explosionRadius < 0xFFFF && turn < |turns|
      modifies this`toDestroy, this`toErase, this`turns
      ensures View() == Explode(params, old(View()), id, bomb.position)
    {
      hide RobotsOn, BlocksOn, Elems, AddEvent, Visited;
      var robots, torn := Burst(bomb.position);
      AddEventTo(turn, BombExploded(id, robots, torn));
    }

    // ---------- begin_turn ----------

    /** The timer loop: bombs tick in id order, and each that reaches zero explodes at once. */
    method TickBombs(ghost o: Game)
      requires params.explosionRadius < 0xFFFF && turn < |turns|
      requires o == View().(bombs := TickAll(bombs))
      modifies this`bombs, this`toDestroy, this`toErase, this`turns
      ensures View() == ExplodeAll(params, o, Sorted32(Expired(o.bombs)))
    {
      hide Explode, ExplodeAll, Due, Ticked, Expired, TickAll, Tick, Ascending, Sorted;
      var keys := Sorted32(bombs.Keys);
      ghost var was := bombs;
      ghost var x := o;
      TickedNone(was);
      DueEnds(o.bombs, keys);
      ExplodeAllNone(params, o);
      assert keys[..0] == [];
      for k := 0 to |keys|
        invariant bombs == Ticked(was, keys[..k])
        invariant x == ExplodeAll(params, o, Due(o.bombs, keys[..k]))
        invariant View() == x.(bombs := bombs)
      {
        var id := keys[k];
        TickedNext(was, keys, k);
        DueNext(o.bombs, keys, k);
        bombs := bombs[id := Tick(bombs[id])];
        assert bombs[id] == o.bombs[id];
        if bombs[id].timer == 0 {
          ExplodeIgnoresBombs(params, x, bombs, id, bombs[id].position);
          ExplodeAllNext(params, o, Due(o.bombs, keys[..k]), id);
          HandleExplosion(id, bombs[id]);
          x := Explode(params, x, id, o.bombs[id].position);
        }
      }
      assert keys[..|keys|] == keys;
    }

    method EraseBombs()
      modifies this`bombs
      ensures bombs == old(bombs) - Expired(old(bombs))
    {
      hide Kept, Expired, Ascending, Sorted;
      ghost var was := bombs;
      var keys := Sorted32(bombs.Keys);
      KeptEnds(was, keys);
      assert keys[..0] == [];
      for k := 0 to |keys|
        invariant bombs == Kept(was, keys[..k])
      {
        KeptNext(was, keys, k);
        if bombs[keys[k]].timer == 0 {
          bombs := bombs - {keys[k]};
        }
      }
      assert keys[..|keys|] == keys;
    }

    method EraseBlocks()
      modifies this`blocks
      ensures blocks == old(blocks) - Elems(toErase)
    {
      for k := 0 to |toErase|
        invariant blocks == old(blocks) - Elems(toErase[..k])
      {
        assert toErase[..k + 1] == toErase[..k] + [toErase[k]];
        blocks := blocks - {toErase[k]};
      }
      assert toErase[..|toErase|] == toErase;
    }

    method OpenNextTurn()
      requires turn < 0xFFFF
      modifies this`turn, this`turns
      ensures View() == OpenTurn(old(View())).(bombs := bombs)
    {
      turn := Add16(turn, 1);
      turns := turns + [TurnInfo(turn, [])];
    }

    method BeginTurn()
      requires params.Valid() && started && Shaped(View()) && turn < 0xFFFF
      modifies this`turn, this`turns, this`bombs, this`toDestroy, this`toErase, this`blocks
      ensures View() == GameSpec.BeginTurn(params, old(View()))
    {
      hide ExplodeAll, TickAll, Expired, Elems;
      OpenNextTurn();
      TickBombs(OpenTurn(old(View())));
      EraseBombs();
      EraseBlocks();
    }

    // ---------- seeding ----------

    method SeedPlayer(id: u8)
      requires params.Valid() && turn < |turns|
      modifies this`draws, this`turns, this`positions
      ensures View() == GameSpec.SeedPlayer(params, rng, old(View()), id)
    {
      var x := rng(draws) % params.sizeX;
      draws := draws + 1;
      var y := rng(draws) % params.sizeY;
      draws := draws + 1;
      AddEventTo(turn, PlayerMoved(id, Position(x, y)));
      positions := positions[id := Position(x, y)];
    }

    method SeedPlayers()
      requires params.Valid() && turn < |turns|
      modifies this`draws, this`turns, this`positions
      ensures View() == GameSpec.SeedPlayers(params, rng, old(View()), Sorted8(players.Keys))
    {
      hide GameSpec.SeedPlayer, Sorted, Ascending;
      var ids := Sorted8(players.Keys);
      for k := 0 to |ids|
        invariant View() == GameSpec.SeedPlayers(params, rng, old(View()), ids[..k])
      {
        assert ids[..k + 1][..k] == ids[..k];
        SeedPlayer(ids[k]);
      }
      assert ids[..|ids|] == ids;
    }

    method SeedBlocks()
      requires params.Valid() && turns != []
      modifies this`draws, this`turns, this`blocks
      ensures View() == GameSpec.SeedBlocks(params, rng, old(View()), params.initialBlocks)
    {
      hide GameSpec.SeedBlock;
      for i := 0 to params.initialBlocks
        invariant View() == GameSpec.SeedBlocks(params, rng, old(View()), i)
      {
        SeedBlock();
      }
    }

    method SeedBlock()
      requires params.Valid() && turns != []
      modifies this`draws, this`turns, this`blocks
      ensures View() == GameSpec.SeedBlock(params, rng, old(View()))
    {
      var x := rng(draws) % params.sizeX;
      draws := draws + 1;
      var y := rng(draws) % params.sizeY;
      draws := draws + 1;
      AddEventTo(0, BlockPlaced(Position(x, y)));
      blocks := blocks + {Position(x, y)};
    }

    method SendToAll(m: ServerMessage)
      modifies this`out
      ensures out == old(out) + [ToAll(m)]
    {
      out := out + [ToAll(m)];
    }

    method StartGameplay()
      requires params.Valid() && !started && Shaped(View())
      modifies this`started, this`turns, this`out, this`draws, this`positions, this`blocks
      ensures View() == GameSpec.StartGameplay(params, rng, old(View()))
    {
      hide GameSpec.SeedPlayers, GameSpec.SeedBlocks;
      started := true;
      turns := turns + [TurnInfo(0, [])];
      SendToAll(GameStarted(players));
      SeedPlayers();
      SeedBlocks();
    }

    // ---------- the four client messages ----------

    method AddPlayer(slot: nat, name: seq<u8>, address: seq<u8>)
      modifies this`nextPlayer, this`slots, this`players, this`scores, this`out
      ensures View() == Accept(old(View()), slot, name, address)
    {
      hide Insert, Add8;
      var id := nextPlayer;
      nextPlayer := Add8(nextPlayer, 1);
      var player := Player(name, address);
      slots := slots[slot := id];
      players := Insert(players, id, player);
      scores := Insert(scores, id, 0);
      SendToAll(AcceptedPlayer(id, player));
    }

    method HandleJoin(slot: nat, name: seq<u8>, address: seq<u8>)
      requires params.Valid() && Shaped(View())
      modifies this
      ensures View() == GameSpec.HandleJoin(params, rng, old(View()), slot, name, address)
    {
      hide GameSpec.StartGameplay;
      if started {
        return;
      }
      AddPlayer(slot, name, address);
      if |players| == params.playersCount {
        StartGameplay();
      }
    }

    /** `alive` is false when the source throws an std::out_of_range that nothing catches. */
    method HandlePlaceBomb(slot: nat) returns (alive: bool)
      modifies this
      ensures alive <==> GameSpec.HandlePlaceBomb(params, old(View()), slot).Running?
      ensures alive ==> GameSpec.HandlePlaceBomb(params, old(View()), slot) == Running(View())
    {
      if slot !in slots || slots[slot] in toDestroy {
        return true;
      }
      var id := nextBomb;
      nextBomb := Add32(nextBomb, 1);
      if slots[slot] !in positions {
        return false;
      }
      var position := positions[slots[slot]];
      bombs := Insert(bombs, id, Bomb(position, params.bombTimer));
      if turn >= |turns| {
        return false;
      }
      AddEventTo(turn, BombPlaced(id, position));
      return true;
    }

    method HandlePlaceBlock(slot: nat) returns (alive: bool)
      modifies this
      ensures alive <==> GameSpec.HandlePlaceBlock(old(View()), slot).Running?
      ensures alive ==> GameSpec.HandlePlaceBlock(old(View()), slot) == Running(View())
    {
      if slot !in slots || slots[slot] in toDestroy {
        return true;
      }
      if slots[slot] !in positions {
        return false;
      }
      var position := positions[slots[slot]];
      blocks := blocks + {position};
      if turn >= |turns| {
        return false;
      }
      AddEventTo(turn, BlockPlaced(position));
      return true;
    }

    method HandleMove(slot: nat, direction: u8, stale: Position) returns (alive: bool)
      modifies this
      ensures alive <==> GameSpec.HandleMove(params, old(View()), slot, direction, stale).Running?
      ensures alive ==> GameSpec.HandleMove(params, old(View()), slot, direction, stale) == Running(View())
    {
      if slot !in slots || slots[slot] in toDestroy {
        return true;
      }
      var id := slots[slot];
      if id !in positions {
        return false;
      }
      var position := positions[id];
      var newPosition := stale;
      if direction == UP {
        newPosition := Position(position.x, Add16(position.y, 1));
      } else if direction == DOWN {
        newPosition := Position(position.x, Sub16(position.y, 1));
      } else if direction == LEFT {
        newPosition := Position(Sub16(position.x, 1), position.y);
      } else if direction == RIGHT {
        newPosition := Position(Add16(position.x, 1), position.y);
      }
      if !OnBoard(params, newPosition) || newPosition in blocks {
        return true;
      }
      positions := positions[id := newPosition];
      if turn >= |turns| {
        return false;
      }
      AddEventTo(turn, PlayerMoved(id, newPosition));
      return true;
    }

    // ---------- summarise_turn ----------

    method Respawn(id: u8)
      requires params.Valid() && turn < |turns| && id in scores
      modifies this`scores, this`draws, this`turns, this`positions
      ensures View() == GameSpec.Respawn(params, rng, old(View()), id)
    {
      hide GameSpec.SeedPlayer;
      scores := scores[id := Add32(scores[id], 1)];
      SeedPlayer(id);
    }

    method RespawnDestroyed()
      requires params.Valid() && turn < |turns| && toDestroy <= scores.Keys
      modifies this`scores, this`draws, this`turns, this`positions
      ensures View() == RespawnAll(params, rng, old(View()), Sorted8(toDestroy))
    {
      hide GameSpec.Respawn, Sorted, Ascending;
      var ids := Sorted8(toDestroy);
      for k := 0 to |ids|
        invariant View() == RespawnAll(params, rng, old(View()), ids[..k])
      {
        assert ids[..k + 1][..k] == ids[..k];
        Respawn(ids[k]);
      }
      assert ids[..|ids|] == ids;
    }

    method SummariseTurn()
      requires params.Valid() && started && Shaped(View()) && toDestroy <= scores.Keys
      modifies this
      ensures View() ==
              var c := CloseTurn(params, rng, old(View()));
              if c.turn == params.gameLength then GameSpec.EndGameplay(c) else c
    {
      hide RespawnAll, Sorted;
      RespawnDestroyed();
      SendToAll(Turn(turns[turn]));
      toErase := [];
      toDestroy := {};
      if turn == params.gameLength {
        EndGameplay();
      }
    }

    method EndGameplay()
      modifies this`out, this`started
      modifies this`players, this`scores, this`positions, this`slots, this`nextPlayer
      modifies this`blocks, this`turn, this`turns, this`bombs, this`nextBomb
      ensures View() == GameSpec.EndGameplay(old(View()))
    {
      SendToAll(GameEnded(scores));
      started := false;
      ForgetPlayers();
      ForgetBoard();
    }

    method ForgetPlayers()
      modifies this`players, this`scores, this`positions, this`slots, this`nextPlayer
      ensures players == map[] && scores == map[] && positions == map[] && slots == map[] && nextPlayer == 0
    {
      players, scores, positions, slots, nextPlayer := map[], map[], map[], map[], 0;
    }

    method ForgetBoard()
      modifies this`blocks, this`turn, this`turns, this`bombs, this`nextBomb
      ensures blocks == {} && turn == 0 && turns == [] && bombs == map[] && nextBomb == 0
    {
      blocks, turn, turns, bombs, nextBomb := {}, 0, [], map[], 0;
    }

    // ---------- greeting a new connection ----------

    method SendTo(slot: nat, m: ServerMessage)
      modifies this`out
      ensures out == old(out) + [ToSlot(slot, m)]
    {
      out := out + [ToSlot(slot, m)];
    }

    method SendAllTurns(slot: nat)
      modifies this`out
      ensures out == old(out) + SendTurns(slot, turns)
    {
      for k := 0 to |turns|
        invariant out == old(out) + SendTurns(slot, turns[..k])
      {
        assert SendTurns(slot, turns[..k + 1]) == SendTurns(slot, turns[..k]) + [ToSlot(slot, Turn(turns[k]))];
        SendTo(slot, Turn(turns[k]));
      }
      assert turns[..|turns|] == turns;
    }

    method SendAllAccepted(slot: nat)
      modifies this`out
      ensures out == old(out) + SendAccepted(players, slot, Sorted8(players.Keys))
    {
      hide Sorted, Ascending;
      var ids := Sorted8(players.Keys);
      for k := 0 to |ids|
        invariant out == old(out) + SendAccepted(players, slot, ids[..k])
      {
        assert SendAccepted(players, slot, ids[..k + 1]) ==
               SendAccepted(players, slot, ids[..k]) + [ToSlot(slot, AcceptedPlayer(ids[k], players[ids[k]]))];
        SendTo(slot, AcceptedPlayer(ids[k], players[ids[k]]));
      }
      assert ids[..|ids|] == ids;
    }

    /** send_hello, then send_hello_state. */
    method GreetSlot(slot: nat)
      modifies this`out
      ensures View() == Greet(params, old(View()), slot)
    {
      hide SendTurns, SendAccepted, Sorted, Ascending;
      SendTo(slot, HelloMessage(params));
      if started {
        SendTo(slot, GameStarted(players));
        SendAllTurns(slot);
      } else {
        SendAllAccepted(slot);
      }
    }

    // ---------- handle_msg and manage_connections ----------

    method Dispatch(m: ClientMessage, slot: nat, address: seq<u8>, stale: Position) returns (alive: bool)
      requires params.Valid() && Shaped(View())
      modifies this
      ensures alive <==> Handle(params, rng, old(View()), slot, m, address, stale).Running?
      ensures alive ==> Handle(params, rng, old(View()), slot, m, address, stale) == Running(View())
    {
      hide GameSpec.HandleJoin, GameSpec.HandlePlaceBomb, GameSpec.HandlePlaceBlock, GameSpec.HandleMove;
      alive := true;
      match m
      case Join(name) => HandleJoin(slot, name, address);
      case PlaceBomb => alive := HandlePlaceBomb(slot);
      case PlaceBlock => alive := HandlePlaceBlock(slot);
      case Move(d) => alive := HandleMove(slot, d, stale);
    }

    /** Reads one buffer, and applies its last message if all of it parses. */
    method HandleMsg(slot: nat, read: Read) returns (status: Status, alive: bool)
      requires params.Valid() && Shaped(View()) && tcp.Valid()
      requires read.incoming.Data? ==> |read.incoming.bytes| <= BUF_SIZE
      modifies this, tcp`start, tcp`length, tcp.buf
      ensures tcp.Valid() && status == StatusOf(read.incoming)
      ensures Delivered(read.incoming).None? ==> alive && View() == old(View())
      ensures Delivered(read.incoming).Some? ==>
                var r := Handle(params, rng, old(View()), slot, Delivered(read.incoming).value, read.address,
                    read.stale);
                (alive <==> r.Running?) && (alive ==> r == Running(View()))
    {
      hide Handle, View, ParseOne;
      NothingToParse();
      status := tcp.ReadFrom(read.incoming);
      if status != PotentiallySuccess {
        return status, true;
      }
      ghost var bytes := read.incoming.bytes;
      var msg: Option<ClientMessage> := None;
      while msg.None? || !tcp.IsBufEmpty()
        invariant tcp.Valid() && tcp.length == |tcp.Remaining()|
        invariant View() == old(View())
        invariant ParseBuffer(bytes) == if msg.Some? && tcp.Remaining() == [] then msg else ParseBuffer(tcp.Remaining())
        decreases |tcp.Remaining()|, msg.None?
      {
        ParseOneShrinks(tcp.Remaining());
        msg := tcp.ReadMessage();
        if msg.None? {
          return ErrorMsg, true;
        }
      }
      alive := Dispatch(msg.value, slot, read.address, read.stale);
      return Success, alive;
    }

    method SendGreeting()
      requires tcp.Valid()
      modifies this`out, tcp`open
      ensures tcp.Valid() && tcp.open == Opened(old(tcp.open), true)
      ensures View() == if Admits(old(tcp.open)) then Greet(params, old(View()), GREETED_SLOT) else old(View())
    {
      hide Greet, FirstFree;
      var slot := tcp.AcceptClient();
      if slot >= 0 {
        GreetSlot(GREETED_SLOT);
      }
    }

    /** Handles one readable slot; a client whose bytes were no message is disconnected. */
    method ReceiveOne(read: Read, slot: nat, ghost s: Server) returns (alive: bool, ghost s': Server)
      requires params.Valid() && tcp.Valid() && FIRST_SLOT <= slot < CONN_MAX && |read.address| < 0x100
      requires read.incoming.Data? ==> |read.incoming.bytes| <= BUF_SIZE
      requires Reachable(params, rng, s) && s.game == View() && s.control.Polling? && s.control.next <= slot
      modifies this, tcp`start, tcp`length, tcp`open, tcp.buf
      ensures tcp.Valid()
      ensures tcp.open == if !alive || Delivered(read.incoming).Some?
              then old(tcp.open) else old(tcp.open)[slot := false]
      ensures alive ==> Leads(params, rng, s, ReceivedFrom(Some(read), true, slot), s') &&
                        s'.game == View() && s'.control.Polling? && s'.control.next <= slot + 1
      ensures !alive ==> Dies(params, rng, s, ReceivedFrom(Some(read), true, slot))
    {
      hide View, Reachable, Delivered, Next, Handle, Dies;
      DeliveredIsShort(read.incoming);
      DiesOnlyInLobby(params, rng, s, StartRound);
      s' := s;
      ghost var m := Delivered(read.incoming);
      var status;
      status, alive := HandleMsg(slot, read);
      if m.Some? {
        ReceiveStep(params, rng, s, slot, m.value, read.address, read.stale);
        if alive {
          s' :| Leads(params, rng, s, [Receive(slot, m.value, read.address, read.stale)], s') &&
                s'.game == View() && s'.control == Polling(slot + 1);
        }
      }
      if alive {
        DeliveredStatus(read.incoming);
        tcp.ReportMsgStatus(status, slot);
      }
    }

    /** Handles the readable slots in order. */
    method ReceiveAll(inbox: seq<Option<Read>>, ghost s: Server) returns (alive: bool, ghost s': Server)
      requires params.Valid() && Poll(false, inbox).Valid() && tcp.Valid()
      requires Reachable(params, rng, s) && s.game == View() && s.control.Polling? && s.control.next <= FIRST_SLOT
      modifies this, tcp`start, tcp`length, tcp`open, tcp.buf
      ensures tcp.Valid()
      ensures alive ==> tcp.open == Answered(inbox, old(tcp.open))
      ensures alive ==> Leads(params, rng, s, Received(inbox, old(tcp.open), CONN_MAX), s') &&
                        s'.game == View() && s'.control.Polling?
      ensures !alive ==> Dies(params, rng, s, Received(inbox, old(tcp.open), CONN_MAX))
    {
      hide View, Leads, Reachable, Delivered, Dies, ReceivedFrom;
      ghost var open := tcp.open;
      s', alive := s, true;
      LeadsNowhere(params, rng, s);
      var i := FIRST_SLOT;
      while i < CONN_MAX
        invariant FIRST_SLOT <= i <= CONN_MAX && tcp.Valid() && tcp.open[0] == open[0]
        invariant Leads(params, rng, s, Received(inbox, open, i), s')
        invariant s'.game == View() && s'.control.Polling? && s'.control.next <= i
        invariant forall j :: i <= j < CONN_MAX ==> tcp.open[j] == open[j]
        invariant forall j :: FIRST_SLOT <= j < i ==> (tcp.open[j] <==> open[j] && Keeps(inbox[j]))
      {
        ghost var x, done := s', Received(inbox, open, i);
        ghost var one := ReceivedFrom(inbox[i], open[i], i);
        StaysReachable(params, rng, s, done, x);
        if tcp.open[i] && inbox[i].Some? {
          alive, s' := ReceiveOne(inbox[i].value, i, x);
          if !alive {
            ReceivedSplit(inbox, open, i, CONN_MAX);
            DiesAfter(params, rng, s, done, x, one, Received(inbox, open, CONN_MAX)[|done| + |one|..]);
            return;
          }
          LeadsConcat(params, rng, s, done, x, one, s');
        } else {
          NothingFrom(inbox[i], open[i], i, done);
        }
        i := i + 1;
      }
      assert tcp.open == Answered(inbox, open);
    }

    /** One iteration of the loop: the object goes exactly where the state machine's steps lead. */
    method PlayRound(poll: Poll, ghost s: Server) returns (alive: bool, ghost s': Server)
      requires params.Valid() && poll.Valid() && tcp.Valid()
      requires Reachable(params, rng, s) && s.game == View() && s.control.Top?
      modifies this, tcp`start, tcp`length, tcp`open, tcp.buf
      ensures tcp.Valid()
      ensures alive ==> RoundLeads(params, rng, s, poll, old(tcp.open), s') && s'.game == View() && s'.control.Top?
      ensures alive ==> tcp.open == OpenAfter(poll, old(tcp.open))
      ensures alive <==> !Dies(params, rng, s, RoundSteps(poll, old(tcp.open)))
    {
      hide Leads, Reachable, Dies, Received, GameSpec.BeginTurn, Greet, CloseTurn, GameSpec.EndGameplay, Ending;
      ghost var open := tcp.open;
      s' := StartStep(params, rng, s);
      if started {
        BeginTurn();
      }
      ghost var steps := [StartRound];
      if poll.newClient {
        ghost var b := GreetStep(params, rng, s');
        SendGreeting();
        if Admits(open) {
          LeadsConcat(params, rng, s, steps, s', [AcceptClient], b);
          s', steps := b, [StartRound] + [AcceptClient];
        }
      }
      ghost var ready := s';
      ghost var messages := Received(poll.inbox, tcp.open, CONN_MAX);
      assert RoundSteps(poll, open) == steps + messages;
      alive, s' := ReceiveAll(poll.inbox, ready);
      if !alive {
        DiesAfter(params, rng, s, steps, ready, messages, []);
        assert steps + messages + [] == steps + messages;
        return;
      }
      LeadsConcat(params, rng, s, steps, ready, messages, s');
      LeadsIsAlive(params, rng, s, steps + messages, s');
      ghost var mid := s';
      StaysReachable(params, rng, ready, messages, mid);
      s' := EndStep(params, rng, mid);
      if started {
        SummariseTurn();
      }
    }

    /** The server's loop over any rounds: the object goes exactly where the machine's steps for these
        rounds lead, so everything proved of reachable states holds of it, and it dies exactly when
        one of the rounds comes to a lobby action. */
    method ManageConnections(polls: seq<Poll>, ghost s: Server) returns (alive: bool, ghost s': Server)
      requires params.Valid() && tcp.Valid() && AllValid(polls)
      requires Reachable(params, rng, s) && s.game == View() && s.control.Top?
      modifies this, tcp`start, tcp`length, tcp`open, tcp.buf
      ensures alive <==> !RoundsMeetLobbyAction(params, rng, s, polls, old(tcp.open))
      ensures alive ==> RoundsLead(params, rng, s, polls, old(tcp.open), s') && Reachable(params, rng, s')
      ensures alive ==> s'.game == View() && s'.control.Top? && tcp.open == OpenAfterAll(polls, old(tcp.open))
    {
      hide View, Reachable, RoundLeads, Dies, MeetsLobbyAction, RoundSteps, OpenAfter;
      ghost var open := tcp.open;
      s', alive := s, true;
      for k := 0 to |polls|
        invariant tcp.Valid() && Reachable(params, rng, s') && s'.game == View() && s'.control.Top?
        invariant RoundsLead(params, rng, s, polls[..k], open, s') && tcp.open == OpenAfterAll(polls[..k], open)
      {
        ghost var x, o := s', tcp.open;
        alive, s' := PlayRound(polls[k], x);
        DeathIsProvoked(params, rng, x, RoundSteps(polls[k], o));
        if !alive {
          return;
        }
        RoundStaysReachable(params, rng, x, polls[k], o, s');
        assert polls[..k + 1][..k] == polls[..k];
      }
      assert polls[..|polls|] == polls;
      RoundsAreAlive(params, rng, s, polls, open, s');
    }
  }
}
