/** Which draw gives which coordinate. Every cell the server deals out, to a starting robot, an initial
    block or a respawning robot, is made of the next two draws: x of the first and y of the second. */
module Seeding {
  import opened Types
  import opened Ordered
  import opened Blast
  import opened GameSpec
  import opened Invariant
  import opened TurnLog
  import opened Replay
  import opened BombLife
  import opened Grammar
  import opened Scoring
  import opened Protocol
  import opened Runs

  /** `c` is the `k`-th pair of draws after the first `from`. */
  predicate Dealt(p: Params, rng: Rng, from: nat, k: nat, c: Position)
    requires p.Valid()
  {
    c.x == rng(from + 2 * k) % p.sizeX && c.y == rng(from + 2 * k + 1) % p.sizeY
  }

  lemma {:induction false} MovesDealt(p: Params, rng: Rng, ids: seq<u8>, d: nat)
    requires p.Valid()
    ensures forall i :: 0 <= i < |ids| ==>
              var e := Moves(p, rng, ids, d)[i];
              e.PlayerMoved? && e.player == ids[i] && Dealt(p, rng, d, i, e.position)
  {
    if ids != [] { MovesDealt(p, rng, ids[..|ids| - 1], d); }
  }

  lemma {:induction false} WallsDealt(p: Params, rng: Rng, n: nat, d: nat)
    requires p.Valid()
    ensures forall j :: 0 <= j < n ==>
              var e := Walls(p, rng, n, d)[j]; e.BlockPlaced? && Dealt(p, rng, d, j, e.position)
  {
    if n > 0 { WallsDealt(p, rng, n - 1, d); }
  }

  // ---------- where it ends up ----------

  /** Where the last move of each robot puts it. */
  ghost predicate PutWhere(ids: seq<u8>, moves: seq<Event>, before: map<u8, Position>, after: map<u8, Position>) {
    && |moves| == |ids|
    && (forall q :: q in after <==> q in before || q in ids)
    && (forall i :: 0 <= i < |ids| ==> moves[i].PlayerMoved? && ids[i] in after && after[ids[i]] == moves[i].position)
    && (forall q :: q in before && q !in ids ==> after[q] == before[q])
  }

  lemma PutOneMore(ids: seq<u8>, n: nat, moves: seq<Event>, before: map<u8, Position>, after: map<u8, Position>,
      c: Position)
    requires |ids| == n + 1 && Ascending(ids) && PutWhere(ids[..n], moves, before, after)
    ensures PutWhere(ids, moves + [PlayerMoved(ids[n], c)], before, after[ids[n] := c])
  {
    assert forall q :: q in ids <==> q in ids[..n] || q == ids[n];
    assert ids[n] !in ids[..n];
  }

  lemma NothingPut(before: map<u8, Position>)
    ensures PutWhere([], [], before, before)
  {
  }

  lemma PlayerPut(p: Params, rng: Rng, g: Game, id: u8)
    requires p.Valid() && g.turn < |g.turns|
    ensures SeedPlayer(p, rng, g, id).positions == g.positions[id := Draw(p, rng, g.draws)]
    ensures id in g.scores ==> Respawn(p, rng, g, id).positions == g.positions[id := Draw(p, rng, g.draws)]
  {
    hide Draw;
  }

  lemma {:induction false} SeedPlayersPut(p: Params, rng: Rng, g: Game, ids: seq<u8>)
    requires p.Valid() && |g.turns| == g.turn + 1 && Ascending(ids)
    ensures PutWhere(ids, Moves(p, rng, ids, g.draws), g.positions, SeedPlayers(p, rng, g, ids).positions)
  {
    if ids == [] {
      NothingPut(g.positions);
    } else {
      hide PutWhere, Draw, Moves, Append, SeedPlayer;
      var n := |ids| - 1;
      var q := SeedPlayers(p, rng, g, ids[..n]);
      SeedPlayersPut(p, rng, g, ids[..n]);
      SeedPlayersLog(p, rng, g, ids[..n]);
      PlayerPut(p, rng, q, ids[n]);
      OneMoreMove(p, rng, ids, g.draws, q.draws);
      PutOneMore(ids, n, Moves(p, rng, ids[..n], g.draws), g.positions, q.positions, Draw(p, rng, q.draws));
    }
  }

  lemma {:induction false} RespawnAllPut(p: Params, rng: Rng, g: Game, ids: seq<u8>)
    requires p.Valid() && |g.turns| == g.turn + 1 && Ascending(ids) && forall i :: 0 <= i < |ids| ==> ids[i] in g.scores
    ensures PutWhere(ids, Moves(p, rng, ids, g.draws), g.positions, RespawnAll(p, rng, g, ids).positions)
  {
    if ids == [] {
      NothingPut(g.positions);
    } else {
      hide PutWhere, Draw, Moves, Append, Respawn;
      var n := |ids| - 1;
      var q := RespawnAll(p, rng, g, ids[..n]);
      RespawnAllPut(p, rng, g, ids[..n]);
      RespawnAllLog(p, rng, g, ids[..n]);
      LastRespawn(p, rng, g, ids);
      PlayerPut(p, rng, q, ids[n]);
      OneMoreMove(p, rng, ids, g.draws, q.draws);
      PutOneMore(ids, n, Moves(p, rng, ids[..n], g.draws), g.positions, q.positions, Draw(p, rng, q.draws));
    }
  }

  lemma {:induction false} SeedBlocksPut(p: Params, rng: Rng, g: Game, n: nat)
    requires p.Valid() && |g.turns| == 1
    ensures forall c :: c in SeedBlocks(p, rng, g, n).blocks <==>
              c in g.blocks || BlockPlaced(c) in Walls(p, rng, n, g.draws)
  {
    if n > 0 {
      hide Draw;
      SeedBlocksPut(p, rng, g, n - 1);
      SeedBlocksLog(p, rng, g, n - 1);
    }
  }

  lemma BlocksWhere(events: seq<Event>, n: nat, walls: seq<Event>, blocks: set<Position>)
    requires n <= |events| && events[n..] == walls && forall j :: 0 <= j < |walls| ==> walls[j].BlockPlaced?
    requires forall c :: c in blocks <==> BlockPlaced(c) in walls
    ensures forall k :: n <= k < |events| ==> events[k].BlockPlaced?
    ensures forall c :: c in blocks <==> exists k :: n <= k < |events| && events[k].position == c
  {
    forall k | n <= k < |events| ensures events[k] == walls[k - n] {}
    forall c ensures c in blocks <==> exists k :: n <= k < |events| && events[k].position == c {
      if c in blocks {
        var j :| 0 <= j < |walls| && walls[j] == BlockPlaced(c);
        assert events[n + j].position == c;
      }
      if k :| n <= k < |events| && events[k].position == c {
        assert walls[k - n] == BlockPlaced(c);
      }
    }
  }

  /** Cells dealt in this order: the robots', in ascending id, and then the blocks'. */
  ghost predicate DealtInOrder(p: Params, rng: Rng, from: nat, ids: seq<u8>, events: seq<Event>)
    requires p.Valid()
  {
    && |ids| <= |events|
    && forall k :: 0 <= k < |events| ==>
         && (if k < |ids| then events[k].PlayerMoved? && events[k].player == ids[k] else events[k].BlockPlaced?)
         && Dealt(p, rng, from, k, events[k].position)
  }

  lemma DealtTogether(p: Params, rng: Rng, from: nat, ids: seq<u8>, n: nat)
    requires p.Valid()
    ensures DealtInOrder(p, rng, from, ids, Moves(p, rng, ids, from) + Walls(p, rng, n, from + 2 * |ids|))
  {
    hide Moves, Walls, Dealt;
    var moves, walls := Moves(p, rng, ids, from), Walls(p, rng, n, from + 2 * |ids|);
    MovesDealt(p, rng, ids, from);
    WallsDealt(p, rng, n, from + 2 * |ids|);
    var events := moves + walls;
    forall k | |ids| <= k < |events| ensures events[k].BlockPlaced? && Dealt(p, rng, from, k, events[k].position) {
      ShiftDealt(p, rng, from, |ids|, k - |ids|, walls[k - |ids|].position);
    }
  }

  lemma ShiftDealt(p: Params, rng: Rng, from: nat, n: nat, j: nat, c: Position)
    requires p.Valid()
    ensures Dealt(p, rng, from + 2 * n, j, c) <==> Dealt(p, rng, from, n + j, c)
  {
    assert from + 2 * n + 2 * j == from + 2 * (n + j);
  }

  /** `r` has begun turn 0 with these robots and `n` blocks, on the cells of the draws after those of
      `g`, and they are where these events put them. */
  ghost predicate Started(p: Params, rng: Rng, g: Game, ids: seq<u8>, n: nat, r: Game)
    requires p.Valid()
  {
    && |r.turns| == 1 && r.turns[0].turn == 0
    && var events := r.turns[0].events;
       && |events| == |ids| + n && r.draws == g.draws + 2 * |events|
       && DealtInOrder(p, rng, g.draws, ids, events)
       && PutWhere(ids, events[..|ids|], map[], r.positions)
       && forall c :: c in r.blocks <==> exists k :: |ids| <= k < |events| && events[k].position == c
  }

  /** A game starts with one move per player, in ascending id, and then the initial blocks, on the cells
      of the next pairs of draws in this order; that is where the robots and the blocks then are. */
  lemma StartIsDealt(p: Params, rng: Rng, g: Game, r: Game)
    requires p.Valid() && Idle(g) && r == StartGameplay(p, rng, g)
    ensures Started(p, rng, g, Sorted8(g.players.Keys), p.initialBlocks, r)
  {
    hide Moves, Walls, SeedPlayers, SeedBlocks, Draw, Sorted, PutWhere, DealtInOrder, StartGameplay;
    var ids := Sorted8(g.players.Keys);
    StartGameplayLog(p, rng, g, r);
    DealtTogether(p, rng, g.draws, ids, p.initialBlocks);
    StartPuts(p, rng, g, r);
    var moves, walls := Moves(p, rng, ids, g.draws), Walls(p, rng, p.initialBlocks, g.draws + 2 * |ids|);
    var events := r.turns[0].events;
    assert events == moves + walls && events[..|ids|] == moves && events[|ids|..] == walls;
    WallsDealt(p, rng, p.initialBlocks, g.draws + 2 * |ids|);
    BlocksWhere(events, |ids|, walls, r.blocks);
  }

  lemma StartPuts(p: Params, rng: Rng, g: Game, r: Game)
    requires p.Valid() && Idle(g) && r == StartGameplay(p, rng, g)
    ensures var ids := Sorted8(g.players.Keys);
            && PutWhere(ids, Moves(p, rng, ids, g.draws), map[], r.positions)
            && forall c :: c in r.blocks <==> BlockPlaced(c) in Walls(p, rng, p.initialBlocks, g.draws + 2 * |ids|)
  {
    hide Moves, Walls, SeedPlayers, SeedBlocks, Draw, Sorted, PutWhere;
    var ids := Sorted8(g.players.Keys);
    var q := SeedPlayers(p, rng, OpenGame(g), ids);
    MovesFirst(p, rng, g, ids, q);
    SeedPlayersPut(p, rng, OpenGame(g), ids);
    SeedBlocksPut(p, rng, q, p.initialBlocks);
  }

  /** `r` has ended the turn with a move of each of these robots, on the cells of the draws after those
      of `g`, and they are where these moves put them. */
  ghost predicate Respawned(p: Params, rng: Rng, g: Game, ids: seq<u8>, r: Game)
    requires p.Valid() && g.turn < |g.turns|
  {
    && |r.turns| == |g.turns| && r.turns[..g.turn] == g.turns[..g.turn]
    && var n, events := |g.turns[g.turn].events|, r.turns[g.turn].events;
       && |events| == n + |ids| && events[..n] == g.turns[g.turn].events && r.draws == g.draws + 2 * |ids|
       && DealtInOrder(p, rng, g.draws, ids, events[n..])
       && PutWhere(ids, events[n..], g.positions, r.positions)
  }

  /** A turn closes with one move per robot hit, in ascending id, on the cells of the next pairs of draws;
      that is where these robots then are, and the others stay. */
  lemma CloseIsDealt(p: Params, rng: Rng, g: Game, r: Game)
    requires p.Valid() && g.started && Shaped(g) && g.toDestroy <= g.scores.Keys && r == CloseTurn(p, rng, g)
    ensures Respawned(p, rng, g, Sorted8(g.toDestroy), r)
  {
    hide Moves, Walls, Draw, Sorted, DealtInOrder, PutWhere;
    var ids, earlier := Sorted8(g.toDestroy), g.turns[g.turn].events;
    var moves := Moves(p, rng, ids, g.draws);
    CloseTurnLog(p, rng, g, r);
    RespawnAllPut(p, rng, g, ids);
    DealtTogether(p, rng, g.draws, ids, 0);
    NoWalls(p, rng, moves, g.draws + 2 * |ids|);
    assert r.turns[g.turn].events == earlier + moves;
    assert (earlier + moves)[|earlier|..] == moves && (earlier + moves)[..|earlier|] == earlier;
  }

  lemma NoWalls(p: Params, rng: Rng, moves: seq<Event>, d: nat)
    requires p.Valid()
    ensures moves + Walls(p, rng, 0, d) == moves
  {
  }

  // ---------- in every run ----------

  /** The last `n` of the events. */
  function Last(events: seq<Event>, n: nat): seq<Event> {
    if n <= |events| then events[|events| - n..] else []
  }

  /** The seeding moves and blocks of finished turns, in the order of the log: the first `n` events of
      turn 0, and of every later turn as many last ones as it hit robots. */
  ghost function Seeds(n: nat, turns: seq<TurnInfo>): seq<Event> {
    if turns == [] then []
    else if |turns| == 1 then (if n <= |turns[0].events| then turns[0].events[..n] else [])
    else
      var m := |turns| - 1;
      Seeds(n, turns[..m]) + Last(turns[m].events, |Hit(turns[m].events)|)
  }

  ghost predicate AllDealt(p: Params, rng: Rng, from: nat, seeds: seq<Event>)
    requires p.Valid()
  {
    forall k :: 0 <= k < |seeds| ==>
      (seeds[k].PlayerMoved? || seeds[k].BlockPlaced?) && Dealt(p, rng, from, k, seeds[k].position)
  }

  /** The turns whose seeding is complete: all but a later one under way. */
  function Complete(s: Server): seq<TurnInfo> {
    if s.control.Polling? && |s.game.turns| > 1 then s.game.turns[..|s.game.turns| - 1] else s.game.turns
  }

  ghost predicate DealInv(p: Params, rng: Rng, s: Server)
    requires p.Valid()
  {
    if s.game.started then
      var seeds := Seeds(p.playersCount + p.initialBlocks, Complete(s));
      && s.game.draws == s.base + 2 * |seeds| && AllDealt(p, rng, s.base, seeds)
    else s.game.draws == s.base
  }

  lemma MoreDealt(p: Params, rng: Rng, from: nat, seeds: seq<Event>, ids: seq<u8>, more: seq<Event>)
    requires p.Valid() && AllDealt(p, rng, from, seeds) && DealtInOrder(p, rng, from + 2 * |seeds|, ids, more)
    ensures AllDealt(p, rng, from, seeds + more)
  {
    hide Dealt;
    var all := seeds + more;
    forall k | 0 <= k < |all|
      ensures (all[k].PlayerMoved? || all[k].BlockPlaced?) && Dealt(p, rng, from, k, all[k].position)
    {
      if k >= |seeds| { ShiftDealt(p, rng, from, |seeds|, k - |seeds|, more[k - |seeds|].position); }
    }
  }

  /** Nothing that touches only the turn under way changes what is complete. */
  lemma SameDeal(p: Params, rng: Rng, s: Server, s': Server)
    requires p.Valid() && DealInv(p, rng, s) && s'.game.started == s.game.started
    requires s'.base == s.base && s'.game.draws == s.game.draws && (s.game.started ==> Complete(s') == Complete(s))
    ensures DealInv(p, rng, s')
  {
  }

  /** An action written after the seeding of turn 0. */
  lemma SameFirst(p: Params, rng: Rng, s: Server, s': Server)
    requires p.Valid() && DealInv(p, rng, s) && s.game.started && s'.game.started && |s.game.turns| == 1
    requires s'.base == s.base && s'.game.draws == s.game.draws && |s'.game.turns| == 1
    requires p.playersCount + p.initialBlocks <= |s.game.turns[0].events|
    requires s.game.turns[0].events <= s'.game.turns[0].events
    ensures DealInv(p, rng, s')
  {
  }

  lemma ActionDeal(p: Params, rng: Rng, s: Server, slot: nat, m: ClientMessage, address: seq<u8>, stale: Position,
      s': Server)
    requires Inv(p, s) && GrammarInv(p, s) && s.game.started && s.control.Polling? && DealInv(p, rng, s)
    requires Enabled(p, s, Receive(slot, m, address, stale))
    requires Next(p, rng, s, Receive(slot, m, address, stale)) == Alive(s')
    ensures DealInv(p, rng, s')
  {
    hide Handle, Record, Append, DealInv, PastTurns;
    HandleLog(p, rng, s, slot, m, address, stale);
    ActionFrame(p, rng, s.game, slot, m, address, stale);
    if Effective(p, s.game, slot, m, stale) {
      var e := ActionEvent(s.game, slot, m, stale);
      PastOfAppend(s.game.turns, [e]);
      AppendEvents(s.game.turns, e);
      if |s.game.turns| == 1 {
        FirstIsLong(p, s);
        SameFirst(p, rng, s, s');
      } else {
        SameDeal(p, rng, s, s');
      }
    } else {
      SameDeal(p, rng, s, s');
    }
  }

  lemma FirstIsLong(p: Params, s: Server)
    requires GrammarInv(p, s) && s.game.started && s.control.Polling? && |s.game.turns| == 1
    ensures p.playersCount + p.initialBlocks <= |s.game.turns[0].events|
    ensures s.game.toDestroy == Hit(s.game.turns[0].events)
  {
    hide Justified, Hit;
  }

  lemma StartDeal(p: Params, rng: Rng, a: Game, s: Server)
    requires p.Valid() && Idle(a) && |a.players| == p.playersCount && s.game == StartGameplay(p, rng, a)
    requires s.control.Polling? && s.base == a.draws
    ensures DealInv(p, rng, s)
  {
    hide StartGameplay, Dealt, PutWhere, Sorted, Moves, Walls;
    StartGameplayLog(p, rng, a, s.game);
    StartIsDealt(p, rng, a, s.game);
    assert |Sorted8(a.players.Keys)| == |a.players.Keys| == |a.players|;
    var events := s.game.turns[0].events;
    assert Complete(s) == s.game.turns && events[..|events|] == events;
  }

  lemma JoinDeal(p: Params, rng: Rng, s: Server, slot: nat, m: ClientMessage, address: seq<u8>, stale: Position,
      s': Server)
    requires Inv(p, s) && !s.game.started && s.control.Polling? && DealInv(p, rng, s)
    requires Enabled(p, s, Receive(slot, m, address, stale))
    requires Next(p, rng, s, Receive(slot, m, address, stale)) == Alive(s')
    ensures DealInv(p, rng, s')
  {
    hide StartGameplay;
    if m.Join? {
      var a := Accept(s.game, slot, m.name, address);
      AcceptKeeps(p, s.game, slot, m.name, address);
      if |a.players| == p.playersCount { StartDeal(p, rng, a, s'); }
    }
  }

  lemma OnlyMoves(p: Params, rng: Rng, from: nat, ids: seq<u8>, more: seq<Event>)
    requires p.Valid() && DealtInOrder(p, rng, from, ids, more) && |more| == |ids|
    ensures forall i :: 0 <= i < |more| ==> !more[i].BombExploded?
  {
  }

  lemma CloseDeal(p: Params, rng: Rng, s: Server, r: Game)
    requires Inv(p, s) && GrammarInv(p, s) && s.game.started && s.control.Polling? && DealInv(p, rng, s)
    requires Hit(s.game.turns[0].events) == {}
    requires s.game.toDestroy <= s.game.scores.Keys && r == CloseTurn(p, rng, s.game)
    ensures DealInv(p, rng, s.(game := r, control := Closed))
  {
    hide CloseTurn, Hit, AllDealt, DealtInOrder, PutWhere, PastTurns, Sorted;
    var g, n, s' := s.game, p.playersCount + p.initialBlocks, s.(game := r, control := Closed);
    var ids := Sorted8(g.toDestroy);
    CloseIsDealt(p, rng, g, r);
    CloseTurnLog(p, rng, g, r);
    var events, more := g.turns[g.turn].events, r.turns[g.turn].events[|g.turns[g.turn].events|..];
    assert r.turns[g.turn].events == events + more;
    assert Hit(r.turns[g.turn].events) == Hit(events) by {
      OnlyMoves(p, rng, g.draws, ids, more);
      HitQuiet(events, more);
    }
    if g.turn == 0 {
      assert ids == [] && r.turns[0].events == events;
      FirstIsLong(p, s);
    } else {
      assert r.turns[..g.turn] == Complete(s) && Complete(s') == r.turns;
      assert Last(r.turns[g.turn].events, |ids|) == more;
      MoreDealt(p, rng, s.base, Seeds(n, Complete(s)), ids, more);
    }
  }

  lemma DealNext(p: Params, rng: Rng, s: Server, step: Step, s': Server)
    requires Everything(p, s) && DealInv(p, rng, s) && Enabled(p, s, step) && Next(p, rng, s, step) == Alive(s')
    ensures DealInv(p, rng, s')
  {
    hide BeginTurn, CloseTurn, Handle, Record, Greeting, DealInv, LifeInv, TalkInv, Mirrored, PlayersInv, PastTurns,
         CurrentTurn, Hit;
    match step
    case StartRound =>
      if s.game.started {
        BeginTurnLog(p, s.game, s'.game);
        assert s'.game.turns[..|s.game.turns|] == s.game.turns;
      }
      SameDeal(p, rng, s, s');
    case AcceptClient => SameDeal(p, rng, s, s');
    case Receive(slot, m, address, stale) =>
      if s.game.started {
        ActionDeal(p, rng, s, slot, m, address, stale, s');
      } else {
        JoinDeal(p, rng, s, slot, m, address, stale, s');
      }
    case EndRound =>
      if s.game.started {
        CloseDeal(p, rng, s, s'.game);
      } else {
        SameDeal(p, rng, s, s');
      }
    case Continue =>
      if s'.game.started { SameDeal(p, rng, s, s'); } else { NewLobby(p, rng, s'); }
  }

  lemma NewLobby(p: Params, rng: Rng, s: Server)
    requires p.Valid() && !s.game.started && s.game.draws == s.base
    ensures DealInv(p, rng, s)
  {
  }

  lemma {:induction false} DealLeads(p: Params, rng: Rng, s: Server, steps: seq<Step>, s': Server)
    requires p.Valid() && Everything(p, s) && DealInv(p, rng, s) && Leads(p, rng, s, steps, s')
    ensures DealInv(p, rng, s')
    decreases |steps|
  {
    hide Everything, DealInv, Enabled, Next, Shaped;
    if steps != [] {
      var s1 := Next(p, rng, s, steps[0]).server;
      EverythingNext(p, rng, s, steps[0]);
      DealNext(p, rng, s, steps[0], s1);
      DealLeads(p, rng, s1, steps[1..], s');
    }
  }

  /** At the end of every turn of every run the cells dealt out in the game, in the order of the log,
      are the pairs of draws since the game before it, in order and without a gap: x of the first, y of
      the second. */
  lemma EveryCellIsDealt(p: Params, rng: Rng, s: Server)
    requires p.Valid() && Reachable(p, rng, s) && s.game.started && !s.control.Polling?
    ensures var seeds := Seeds(p.playersCount + p.initialBlocks, s.game.turns);
            s.game.draws == s.base + 2 * |seeds| && AllDealt(p, rng, s.base, seeds)
  {
    hide Leads, AllDealt, Seeds;
    var steps :| Leads(p, rng, INITIAL_SERVER, steps, s);
    EverythingInitially(p);
    NewLobby(p, rng, INITIAL_SERVER);
    DealLeads(p, rng, INITIAL_SERVER, steps, s);
  }
}
