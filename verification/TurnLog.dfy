/** What each operation writes to the turn log, in closed form: the events of a whole loop at once
    instead of one append per iteration. Simultaneous explosions turn out to be independent of the
    order they are processed in. */
module TurnLog {
  import opened Types
  import opened Ordered
  import opened Blast
  import opened GameSpec
  import opened Invariant

  /** The log with `extra` added to its last turn. */
  function Append(turns: seq<TurnInfo>, extra: seq<Event>): seq<TurnInfo>
    requires turns != []
  {
    var n := |turns| - 1;
    turns[n := TurnInfo(turns[n].turn, turns[n].events + extra)]
  }

  lemma AppendOne(turns: seq<TurnInfo>, extra: seq<Event>, e: Event)
    requires turns != []
    ensures AddEvent(Append(turns, extra), |turns| - 1, e) == Append(turns, extra + [e])
  {
    var n := |turns| - 1;
    assert (turns[n].events + extra) + [e] == turns[n].events + (extra + [e]);
  }

  lemma AddIsAppend(turns: seq<TurnInfo>, e: Event)
    requires turns != []
    ensures AddEvent(turns, |turns| - 1, e) == Append(turns, [e])
  {
  }

  lemma AppendEvents(turns: seq<TurnInfo>, e: Event)
    requires turns != []
    ensures |Append(turns, [e])| == |turns|
    ensures Append(turns, [e])[|turns| - 1].events == turns[|turns| - 1].events + [e]
  {
  }

  lemma AppendToNew(turns: seq<TurnInfo>, t: u16, extra: seq<Event>)
    ensures Append(turns + [TurnInfo(t, [])], extra) == turns + [TurnInfo(t, extra)]
  {
    assert [] + extra == extra;
  }

  lemma AppendFirst(t: u16, extra: seq<Event>)
    ensures Append([TurnInfo(t, [])], extra) == [TurnInfo(t, extra)]
  {
    assert [] + extra == extra;
  }

  lemma AppendNone(turns: seq<TurnInfo>)
    requires turns != []
    ensures Append(turns, []) == turns
  {
    assert turns[|turns| - 1].events + [] == turns[|turns| - 1].events;
  }

  // ---------- Explosions ----------

  predicate AllExplosions(events: seq<Event>) {
    forall e :: e in events ==> e.BombExploded?
  }

  ghost function Hit(events: seq<Event>): set<u8> {
    set e, q | e in events && e.BombExploded? && q in e.robots :: q
  }

  ghost function Torn(events: seq<Event>): set<Position> {
    set e, c | e in events && e.BombExploded? && c in e.blocks :: c
  }

  ghost function Burnt(events: seq<Event>): set<u32> {
    set e | e in events && e.BombExploded? :: e.id
  }

  /** The explosions of the given bombs, all computed on one board. */
  function Blasts(p: Params, g: Game, ids: seq<u32>): (r: seq<Event>)
    requires forall i :: 0 <= i < |ids| ==> ids[i] in g.bombs
    ensures |r| == |ids|
  {
    if ids == [] then [] else
      var n := |ids| - 1;
      Blasts(p, g, ids[..n]) + [Explosion(p, g.positions, g.blocks, ids[n], g.bombs[ids[n]].position)]
  }

  lemma {:induction false} BlastsAt(p: Params, g: Game, ids: seq<u32>, i: nat)
    requires i < |ids| && forall i :: 0 <= i < |ids| ==> ids[i] in g.bombs
    ensures ids[i] in ids
    ensures Blasts(p, g, ids)[i] == Explosion(p, g.positions, g.blocks, ids[i], g.bombs[ids[i]].position)
  {
    if i < |ids| - 1 { BlastsAt(p, g, ids[..|ids| - 1], i); }
  }

  lemma BlastsExplode(p: Params, g: Game, ids: seq<u32>)
    requires forall i :: 0 <= i < |ids| ==> ids[i] in g.bombs
    ensures AllExplosions(Blasts(p, g, ids))
  {
    forall i | 0 <= i < |ids| ensures Blasts(p, g, ids)[i].BombExploded? {
      BlastsAt(p, g, ids, i);
    }
  }

  /** `r` is `g` after logging and marking the explosions `b`. */
  ghost predicate Marked(g: Game, b: seq<Event>, r: Game)
    requires g.turns != []
  {
    && r.turns == Append(g.turns, b)
    && r.toDestroy == g.toDestroy + Hit(b)
    && Elems(r.toErase) == Elems(g.toErase) + Torn(b)
  }

  lemma MarkOne(g: Game, b: seq<Event>, q: Game, e: Event)
    requires |g.turns| == g.turn + 1 && q.turn == g.turn && Marked(g, b, q) && e.BombExploded?
    ensures Marked(g, b + [e], Mark(q, e))
  {
    AppendOne(g.turns, b, e);
    assert Hit(b + [e]) == Hit(b) + Elems(e.robots);
    assert Torn(b + [e]) == Torn(b) + Elems(e.blocks);
    ElemsConcat(q.toErase, e.blocks);
  }

  lemma MarkNone(g: Game)
    requires g.turns != []
    ensures Marked(g, [], g)
  {
    AppendNone(g.turns);
    assert Hit([]) == {} && Torn([]) == {};
  }

  lemma {:induction false} ExplodeAllLog(p: Params, g: Game, ids: seq<u32>)
    requires |g.turns| == g.turn + 1 && forall i :: 0 <= i < |ids| ==> ids[i] in g.bombs
    ensures Marked(g, Blasts(p, g, ids), ExplodeAll(p, g, ids))
  {
    if ids == [] {
      MarkNone(g);
    } else {
      var n := |ids| - 1;
      hide Explosion, Mark, Marked, Append;
      ExplodeAllLog(p, g, ids[..n]);
      var q := ExplodeAll(p, g, ids[..n]);
      MarkOne(g, Blasts(p, g, ids[..n]), q, Explosion(p, q.positions, q.blocks, ids[n], q.bombs[ids[n]].position));
    }
  }

  /** Processing the same bombs in any two orders destroys the same robots and the same blocks. */
  lemma ExplosionOrderIrrelevant(p: Params, g: Game, one: seq<u32>, other: seq<u32>)
    requires |g.turns| == g.turn + 1 && Elems(one) == Elems(other)
    requires forall i :: 0 <= i < |one| ==> one[i] in g.bombs
    requires forall i :: 0 <= i < |other| ==> other[i] in g.bombs
    ensures ExplodeAll(p, g, one).toDestroy == ExplodeAll(p, g, other).toDestroy
    ensures Elems(ExplodeAll(p, g, one).toErase) == Elems(ExplodeAll(p, g, other).toErase)
  {
    hide Blasts, ExplodeAll, Append;
    ExplodeAllLog(p, g, one);
    ExplodeAllLog(p, g, other);
    BlastsSameElems(p, g, one, other);
    BlastsSameElems(p, g, other, one);
    SameElems(Blasts(p, g, one), Blasts(p, g, other));
  }

  lemma SameElems(a: seq<Event>, b: seq<Event>)
    requires forall e :: e in a <==> e in b
    ensures Hit(a) == Hit(b) && Torn(a) == Torn(b)
  {
  }

  lemma BlastsSameElems(p: Params, g: Game, one: seq<u32>, other: seq<u32>)
    requires forall i :: 0 <= i < |one| ==> one[i] in g.bombs
    requires forall i :: 0 <= i < |other| ==> other[i] in g.bombs
    requires Elems(one) <= Elems(other)
    ensures forall e :: e in Blasts(p, g, one) ==> e in Blasts(p, g, other)
  {
    var a, b := Blasts(p, g, one), Blasts(p, g, other);
    forall e | e in a ensures e in b {
      var i :| 0 <= i < |a| && a[i] == e;
      BlastsAt(p, g, one, i);
      assert one[i] in Elems(one);
      var j :| 0 <= j < |other| && other[j] == one[i];
      BlastsAt(p, g, other, j);
    }
  }

  function Dying(g: Game): set<u32> { Expired(TickAll(g.bombs)) }

  lemma {:induction false} BlastsSameBoard(p: Params, g: Game, o: Game, ids: seq<u32>)
    requires o.positions == g.positions && o.blocks == g.blocks && o.bombs.Keys == g.bombs.Keys
    requires forall i :: 0 <= i < |ids| ==> ids[i] in g.bombs && o.bombs[ids[i]].position == g.bombs[ids[i]].position
    ensures Blasts(p, o, ids) == Blasts(p, g, ids)
  {
    if ids != [] { BlastsSameBoard(p, g, o, ids[..|ids| - 1]); }
  }

  /** The explosions a turn begins with, ascending by bomb id, all computed on the board before it. */
  function Opening(p: Params, g: Game): (b: seq<Event>)
    ensures |b| == |Dying(g)| && AllExplosions(b)
  {
    BlastsExplode(p, g, Sorted32(Dying(g)));
    Blasts(p, g, Sorted32(Dying(g)))
  }

  lemma DyingKeepCells(g: Game)
    ensures TickAll(g.bombs).Keys == g.bombs.Keys && Dying(g) <= g.bombs.Keys
    ensures forall id :: id in g.bombs ==> TickAll(g.bombs)[id].position == g.bombs[id].position
  {
  }

  /** The state after the loop over the bombs, before anything is erased. */
  function Exploded(p: Params, g: Game): Game
    requires g.started && Shaped(g) && g.turn < 0xFFFF
  {
    ExplodeAll(p, OpenTurn(g), Sorted32(Dying(g)))
  }

  lemma BeginTurnParts(p: Params, g: Game)
    requires g.started && Shaped(g) && g.turn < 0xFFFF
    ensures BeginTurn(p, g) ==
            Exploded(p, g).(bombs := TickAll(g.bombs) - Dying(g), blocks := g.blocks - Elems(Exploded(p, g).toErase))
  {
  }

  lemma ExplodedLog(p: Params, g: Game)
    requires g.started && Shaped(g) && g.turn < 0xFFFF
    ensures Exploded(p, g) == OpenTurn(g).(turns := Exploded(p, g).turns, toDestroy := Exploded(p, g).toDestroy,
                                           toErase := Exploded(p, g).toErase)
    ensures Exploded(p, g).turns == g.turns + [TurnInfo(g.turn + 1, Opening(p, g))]
    ensures Exploded(p, g).toDestroy == g.toDestroy + Hit(Opening(p, g))
    ensures Elems(Exploded(p, g).toErase) == Elems(g.toErase) + Torn(Opening(p, g))
  {
    hide ExplodeAll, Blasts, Hit, Torn, Append, Elems, Dying, TickAll;
    var o, ids := OpenTurn(g), Sorted32(Dying(g));
    DyingKeepCells(g);
    BlastsSameBoard(p, g, o, ids);
    ExplodeAllLog(p, o, ids);
    AppendToNew(g.turns, g.turn + 1, Blasts(p, g, ids));
  }

  lemma BeginTurnLog(p: Params, g: Game, r: Game)
    requires g.started && Shaped(g) && Settled(g) && g.turn < 0xFFFF && r == BeginTurn(p, g)
    ensures r.turns == g.turns + [TurnInfo(g.turn + 1, Opening(p, g))]
    ensures r.toDestroy == Hit(Opening(p, g))
    ensures r.blocks == g.blocks - Torn(Opening(p, g))
    ensures r.bombs == TickAll(g.bombs) - Dying(g)
    ensures r == g.(turn := g.turn + 1, turns := r.turns, toDestroy := r.toDestroy, toErase := r.toErase,
                    blocks := r.blocks, bombs := r.bombs)
  {
    hide BeginTurn, Exploded, Opening, Dying, TickAll;
    BeginTurnParts(p, g);
    ExplodedLog(p, g);
  }

  lemma BlastsTorn(p: Params, g: Game, ids: seq<u32>, c: Position)
    requires forall i :: 0 <= i < |ids| ==> ids[i] in g.bombs && OnBoard(p, g.bombs[ids[i]].position)
    ensures c in Torn(Blasts(p, g, ids)) <==>
            c in g.blocks && exists id :: id in ids && InBlast(p, g.blocks, g.bombs[id].position, c)
  {
    var b := Blasts(p, g, ids);
    BlastsExplode(p, g, ids);
    forall i | 0 <= i < |ids|
      ensures b[i] in b && c in b[i].blocks <==> c in g.blocks && InBlast(p, g.blocks, g.bombs[ids[i]].position, c)
    {
      BlastsAt(p, g, ids, i);
      ExplosionIsExact(p, g.positions, g.blocks, ids[i], g.bombs[ids[i]].position);
    }
    if c in Torn(b) {
      var e :| e in b && e.BombExploded? && c in e.blocks;
      var i :| 0 <= i < |b| && b[i] == e;
      assert ids[i] in ids;
    }
    if id :| id in ids && c in g.blocks && InBlast(p, g.blocks, g.bombs[id].position, c) {
      var i :| 0 <= i < |ids| && ids[i] == id;
      assert b[i] in b && c in b[i].blocks;
    }
  }

  lemma BlastsHit(p: Params, g: Game, ids: seq<u32>, q: u8)
    requires forall i :: 0 <= i < |ids| ==> ids[i] in g.bombs && OnBoard(p, g.bombs[ids[i]].position)
    ensures q in Hit(Blasts(p, g, ids)) <==>
            q in g.positions && exists id :: id in ids && InBlast(p, g.blocks, g.bombs[id].position, g.positions[q])
  {
    var b := Blasts(p, g, ids);
    BlastsExplode(p, g, ids);
    forall i | 0 <= i < |ids|
      ensures b[i] in b && q in b[i].robots <==>
              q in g.positions && InBlast(p, g.blocks, g.bombs[ids[i]].position, g.positions[q])
    {
      BlastsAt(p, g, ids, i);
      ExplosionIsExact(p, g.positions, g.blocks, ids[i], g.bombs[ids[i]].position);
    }
    if q in Hit(b) {
      var e :| e in b && e.BombExploded? && q in e.robots;
      var i :| 0 <= i < |b| && b[i] == e;
      assert ids[i] in ids;
    }
    if id :| id in ids && q in g.positions && InBlast(p, g.blocks, g.bombs[id].position, g.positions[q]) {
      var i :| 0 <= i < |ids| && ids[i] == id;
      assert b[i] in b && q in b[i].robots;
    }
  }

  lemma DyingLive(g: Game)
    ensures Dying(g) <= g.bombs.Keys
    ensures TickAll(g.bombs).Keys == g.bombs.Keys
  {
  }

  /** A turn begins by destroying exactly the blocks and robots of the board before it that some
      expiring bomb reaches on that board, and by removing exactly the expiring bombs. */
  lemma BeginTurnIsExact(p: Params, g: Game, r: Game)
    requires g.started && PlayingInv(p, g) && Settled(g) && g.turn < 0xFFFF && r == BeginTurn(p, g)
    ensures forall c :: c in r.blocks <==>
              c in g.blocks && forall id :: id in Dying(g) ==> !InBlast(p, g.blocks, g.bombs[id].position, c)
    ensures forall q :: q in r.toDestroy <==>
              q in g.positions &&
              exists id :: id in Dying(g) && InBlast(p, g.blocks, g.bombs[id].position, g.positions[q])
    ensures r.bombs.Keys == g.bombs.Keys - Dying(g)
  {
    BeginTurnLog(p, g, r);
    hide BeginTurn, Blasts, InBlast, Dying, Hit, Torn, Elems, TickAll;
    var ids := Sorted32(Dying(g));
    DyingLive(g);
    forall c { BlastsTorn(p, g, ids, c); }
    forall q { BlastsHit(p, g, ids, q); }
  }

  // ---------- Seeding and respawning ----------

  function Moves(p: Params, rng: Rng, ids: seq<u8>, d: nat): (r: seq<Event>)
    requires p.Valid()
    ensures |r| == |ids|
    ensures forall i :: 0 <= i < |r| ==> r[i].PlayerMoved? && r[i].player == ids[i] && OnBoard(p, r[i].position)
  {
    if ids == [] then [] else
      var n := |ids| - 1;
      Moves(p, rng, ids[..n], d) + [PlayerMoved(ids[n], Draw(p, rng, d + 2 * n))]
  }

  lemma OneMoreMove(p: Params, rng: Rng, ids: seq<u8>, d: nat, k: nat)
    requires p.Valid() && ids != [] && k == d + 2 * (|ids| - 1)
    ensures var n := |ids| - 1;
            Moves(p, rng, ids, d) == Moves(p, rng, ids[..n], d) + [PlayerMoved(ids[n], Draw(p, rng, k))]
  {
    hide Draw;
  }

  function Walls(p: Params, rng: Rng, n: nat, d: nat): (r: seq<Event>)
    requires p.Valid()
    ensures |r| == n && forall i :: 0 <= i < |r| ==> r[i].BlockPlaced? && OnBoard(p, r[i].position)
  {
    if n == 0 then [] else Walls(p, rng, n - 1, d) + [BlockPlaced(Draw(p, rng, d + 2 * (n - 1)))]
  }

  /** One more seeded player extends the log by one move and the draws by two. */
  lemma SeedStep(p: Params, rng: Rng, turns: seq<TurnInfo>, moves: seq<Event>, q: Game, id: u8)
    requires p.Valid() && turns != [] && |turns| == q.turn + 1 && q.turns == Append(turns, moves)
    ensures SeedPlayer(p, rng, q, id).turns == Append(turns, moves + [PlayerMoved(id, Draw(p, rng, q.draws))])
    ensures SeedPlayer(p, rng, q, id).draws == q.draws + 2
  {
    hide Draw, Append;
    AppendOne(turns, moves, PlayerMoved(id, Draw(p, rng, q.draws)));
    assert |q.turns| == |turns| by { AppendLength(turns, moves); }
  }

  lemma AppendLength(turns: seq<TurnInfo>, extra: seq<Event>)
    requires turns != []
    ensures |Append(turns, extra)| == |turns|
  {
  }

  lemma {:induction false} SeedPlayersLog(p: Params, rng: Rng, g: Game, ids: seq<u8>)
    requires p.Valid() && |g.turns| == g.turn + 1
    ensures SeedPlayers(p, rng, g, ids).turns == Append(g.turns, Moves(p, rng, ids, g.draws))
    ensures SeedPlayers(p, rng, g, ids).draws == g.draws + 2 * |ids|
  {
    if ids == [] {
      AppendNone(g.turns);
    } else {
      hide SeedPlayer, Draw, Append;
      var n := |ids| - 1;
      SeedPlayersLog(p, rng, g, ids[..n]);
      SeedStep(p, rng, g.turns, Moves(p, rng, ids[..n], g.draws), SeedPlayers(p, rng, g, ids[..n]), ids[n]);
    }
  }

  lemma {:induction false} SeedBlocksLog(p: Params, rng: Rng, g: Game, n: nat)
    requires p.Valid() && |g.turns| == 1
    ensures SeedBlocks(p, rng, g, n).turns == Append(g.turns, Walls(p, rng, n, g.draws))
    ensures SeedBlocks(p, rng, g, n).draws == g.draws + 2 * n
  {
    if n == 0 {
      AppendNone(g.turns);
    } else {
      SeedBlocksLog(p, rng, g, n - 1);
      AppendOne(g.turns, Walls(p, rng, n - 1, g.draws), BlockPlaced(Draw(p, rng, g.draws + 2 * (n - 1))));
    }
  }

  lemma WallsAfterMoves(p: Params, rng: Rng, q: Game, moves: seq<Event>, r: Game)
    requires p.Valid() && q.turns == [TurnInfo(0, moves)] && q.turn == 0
    requires r == SeedBlocks(p, rng, q, p.initialBlocks)
    ensures r.turns == [TurnInfo(0, moves + Walls(p, rng, p.initialBlocks, q.draws))]
    ensures r.draws == q.draws + 2 * p.initialBlocks
  {
    SeedBlocksLog(p, rng, q, p.initialBlocks);
  }

  lemma MovesFirst(p: Params, rng: Rng, g: Game, ids: seq<u8>, q: Game)
    requires p.Valid() && Idle(g) && q == SeedPlayers(p, rng, OpenGame(g), ids)
    ensures q.turns == [TurnInfo(0, Moves(p, rng, ids, g.draws))] && q.turn == 0
    ensures q.draws == g.draws + 2 * |ids|
  {
    var o := OpenGame(g);
    SeedPlayersLog(p, rng, o, ids);
    AppendFirst(0, Moves(p, rng, ids, g.draws));
  }

  lemma StartGameplayLog(p: Params, rng: Rng, g: Game, r: Game)
    requires p.Valid() && Idle(g) && r == StartGameplay(p, rng, g)
    ensures r.turns == [TurnInfo(0, Moves(p, rng, Sorted8(g.players.Keys), g.draws) +
                                    Walls(p, rng, p.initialBlocks, g.draws + 2 * |g.players.Keys|))]
    ensures r.draws == g.draws + 2 * |g.players.Keys| + 2 * p.initialBlocks
    ensures r == g.(started := true, turns := r.turns, draws := r.draws, positions := r.positions, blocks := r.blocks,
                    out := g.out + [ToAll(GameStarted(g.players))])
  {
    hide Moves, Walls, SeedPlayers, SeedBlocks, Sorted8, Draw;
    var ids := Sorted8(g.players.Keys);
    var q := SeedPlayers(p, rng, OpenGame(g), ids);
    MovesFirst(p, rng, g, ids, q);
    WallsAfterMoves(p, rng, q, Moves(p, rng, ids, g.draws), r);
  }

  lemma LastRespawn(p: Params, rng: Rng, g: Game, ids: seq<u8>)
    requires p.Valid() && g.turn < |g.turns| && ids != [] && forall i :: 0 <= i < |ids| ==> ids[i] in g.scores
    ensures RespawnAll(p, rng, g, ids) ==
            Respawn(p, rng, RespawnAll(p, rng, g, ids[..|ids| - 1]), ids[|ids| - 1])
  {
    hide Respawn;
  }

  lemma {:induction false} RespawnAllLog(p: Params, rng: Rng, g: Game, ids: seq<u8>)
    requires p.Valid() && |g.turns| == g.turn + 1 && forall i :: 0 <= i < |ids| ==> ids[i] in g.scores
    ensures RespawnAll(p, rng, g, ids).turns == Append(g.turns, Moves(p, rng, ids, g.draws))
    ensures RespawnAll(p, rng, g, ids).draws == g.draws + 2 * |ids|
  {
    if ids == [] {
      AppendNone(g.turns);
    } else {
      hide SeedPlayer, Draw, Append, RespawnAll, Moves;
      var n := |ids| - 1;
      LastRespawn(p, rng, g, ids);
      RespawnAllLog(p, rng, g, ids[..n]);
      var q := RespawnAll(p, rng, g, ids[..n]);
      OneMoreMove(p, rng, ids, g.draws, q.draws);
      SeedStep(p, rng, g.turns, Moves(p, rng, ids[..n], g.draws),
          q.(scores := q.scores[ids[n] := Add32(q.scores[ids[n]], 1)]), ids[n]);
    }
  }

  /** Each listed player scores once. */
  lemma {:induction false} RespawnAllScores(p: Params, rng: Rng, g: Game, ids: seq<u8>)
    requires p.Valid() && g.turn < |g.turns| && forall i :: 0 <= i < |ids| ==> ids[i] in g.scores
    requires Ascending(ids)
    ensures var r := RespawnAll(p, rng, g, ids);
            forall q :: q in g.scores ==> r.scores[q] == if q in ids then Add32(g.scores[q], 1) else g.scores[q]
  {
    if ids != [] {
      var n := |ids| - 1;
      RespawnAllScores(p, rng, g, ids[..n]);
      assert ids == ids[..n] + [ids[n]];
      assert ids[n] !in ids[..n];
    }
  }

  lemma CloseTurnLog(p: Params, rng: Rng, g: Game, r: Game)
    requires p.Valid() && g.started && Shaped(g) && g.toDestroy <= g.scores.Keys && r == CloseTurn(p, rng, g)
    ensures r.turns == Append(g.turns, Moves(p, rng, Sorted8(g.toDestroy), g.draws))
    ensures r.draws == g.draws + 2 * |g.toDestroy|
    ensures r.scores.Keys == g.scores.Keys
    ensures r == g.(turns := r.turns, draws := r.draws, positions := r.positions, scores := r.scores,
                    toErase := [], toDestroy := {}, out := g.out + [ToAll(Turn(r.turns[r.turn]))])
    ensures forall q :: q in g.scores ==>
              r.scores[q] == if q in g.toDestroy then Add32(g.scores[q], 1) else g.scores[q]
  {
    RespawnAllLog(p, rng, g, Sorted8(g.toDestroy));
    RespawnAllScores(p, rng, g, Sorted8(g.toDestroy));
  }

  // ---------- Actions ----------

  /** The event an effective action writes. */
  function ActionEvent(g: Game, slot: nat, m: ClientMessage, stale: Position): Event
    requires slot in g.slots && g.slots[slot] in g.positions
  {
    var q := g.slots[slot];
    var c := g.positions[q];
    match m
    case PlaceBomb => BombPlaced(g.nextBomb, c)
    case Move(d) => PlayerMoved(q, Target(c, d, stale))
    case _ => BlockPlaced(c)
  }

  predicate Effective(p: Params, g: Game, slot: nat, m: ClientMessage, stale: Position)
    requires g.started && g.positions.Keys == g.players.Keys && forall i :: i in g.slots ==> g.slots[i] in g.players
  {
    !m.Join? && !Ignored(g, slot) &&
    (m.Move? ==> CanEnter(p, g.blocks, Target(g.positions[g.slots[slot]], m.direction, stale)))
  }

  /** The server after an action took effect in game `r`. */
  function Acted(s: Server, slot: nat, m: ClientMessage, r: Game): Server
    requires s.acts != [] && slot in s.game.slots
  {
    var n := |s.acts| - 1;
    Server(r, Polling(slot + 1), s.base, if m.PlaceBomb? then s.born + [s.game.turn] else s.born,
           s.acts[n := s.acts[n] + [Act(s.game.slots[slot], m)]])
  }

  /** During play a message either changes nothing or takes effect and writes one event. */
  lemma HandleLog(p: Params, rng: Rng, s: Server, slot: nat, m: ClientMessage, address: seq<u8>, stale: Position)
    requires p.Valid() && s.game.started && s.acts != [] && Shaped(s.game)
    requires s.game.positions.Keys == s.game.players.Keys
    requires forall i :: i in s.game.slots ==> s.game.slots[i] in s.game.players
    ensures var g := s.game; var o := Handle(p, rng, g, slot, m, address, stale);
            o.Running? &&
            (if Effective(p, g, slot, m, stale)
             then o.game.turns == Append(g.turns, [ActionEvent(g, slot, m, stale)]) &&
                  Record(s, slot, m, o.game) == Acted(s, slot, m, o.game)
             else o.game == g && Record(s, slot, m, o.game) == s.(control := Polling(slot + 1)))
  {
    hide Cell, OnBoard, Append;
    var g := s.game;
    if Effective(p, g, slot, m, stale) {
      AppendEvents(g.turns, ActionEvent(g, slot, m, stale));
      AddIsAppend(g.turns, ActionEvent(g, slot, m, stale));
    }
  }

  /** Actions leave everything but the board, the bombs and the log alone. */
  lemma ActionFrame(p: Params, rng: Rng, g: Game, slot: nat, m: ClientMessage, address: seq<u8>, stale: Position)
    requires p.Valid() && Shaped(g) && g.started && Handle(p, rng, g, slot, m, address, stale).Running?
    ensures var r := Handle(p, rng, g, slot, m, address, stale).game;
            r.started && r.turn == g.turn && r.slots == g.slots && r.toDestroy == g.toDestroy &&
            r.players == g.players && r.scores == g.scores && r.draws == g.draws && r.out == g.out &&
            r.toErase == g.toErase && r.nextPlayer == g.nextPlayer
  {
  }
}
