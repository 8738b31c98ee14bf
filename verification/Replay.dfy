/** The protocol's own reading of the turn log (README.md:59-63), as a fold over events, and the
    proof that the log always reproduces the server's live state. */
module Replay {
  import opened Types
  import opened Ordered
  import opened Blast
  import opened GameSpec
  import opened Invariant
  import opened TurnLog

  datatype World = World(positions: map<u8, Position>, blocks: set<Position>, bombs: map<u32, Position>)

  const EMPTY_WORLD := World(map[], {}, map[])

  /** What one event means. Bomb ids are never reused (BombLife), so a placement always adds. */
  function ApplyEvent(w: World, e: Event): World {
    match e
    case BombPlaced(id, c) => w.(bombs := Insert(w.bombs, id, c))
    case BombExploded(id, robots, blocks) =>
      World(w.positions - Elems(robots), w.blocks - Elems(blocks), w.bombs - {id})
    case PlayerMoved(q, c) => w.(positions := w.positions[q := c])
    case BlockPlaced(c) => w.(blocks := w.blocks + {c})
  }

  function Apply(w: World, events: seq<Event>): World {
    if events == [] then w else
      ApplyEvent(Apply(w, events[..|events| - 1]), events[|events| - 1])
  }

  function ReplayTurns(turns: seq<TurnInfo>): World {
    if turns == [] then EMPTY_WORLD else
      Apply(ReplayTurns(turns[..|turns| - 1]), turns[|turns| - 1].events)
  }

  /** Where the live bombs are. */
  function Cells(bombs: map<u32, Bomb>): map<u32, Position> {
    map id | id in bombs :: bombs[id].position
  }

  /** The server's live state as an observer should see it. Robots destroyed this turn are off the
      board, although the server still holds their old cells until they respawn. */
  function Live(g: Game): World {
    World(g.positions - g.toDestroy, g.blocks, Cells(g.bombs))
  }

  ghost predicate Mirrored(g: Game) {
    g.started ==> ReplayTurns(g.turns) == Live(g)
  }

  lemma {:induction false} ApplyConcat(w: World, a: seq<Event>, b: seq<Event>)
    ensures Apply(w, a + b) == Apply(Apply(w, a), b)
  {
    if b == [] {
      assert a + b == a;
    } else {
      var n := |b| - 1;
      assert (a + b)[..|a + b| - 1] == a + b[..n];
      ApplyConcat(w, a, b[..n]);
    }
  }

  lemma ReplayAdd(turns: seq<TurnInfo>, e: Event)
    requires turns != []
    ensures ReplayTurns(AddEvent(turns, |turns| - 1, e)) == ApplyEvent(ReplayTurns(turns), e)
  {
    var n := |turns| - 1;
    var t := AddEvent(turns, n, e);
    assert t[..n] == turns[..n];
    assert t[n].events[..|t[n].events| - 1] == turns[n].events;
  }

  // ---------- Explosions replayed twice ----------

  /** A run of explosions only removes, and removes the union of what each one lists. */
  lemma {:induction false} ApplyExplosions(w: World, events: seq<Event>)
    requires AllExplosions(events)
    ensures Apply(w, events) == World(w.positions - Hit(events), w.blocks - Torn(events), w.bombs - Burnt(events))
  {
    if events != [] {
      var n := |events| - 1;
      assert events == events[..n] + [events[n]];
      ApplyExplosions(w, events[..n]);
      var e := events[n];
      assert Hit(events) == Hit(events[..n]) + Elems(e.robots);
      assert Torn(events) == Torn(events[..n]) + Elems(e.blocks);
      assert Burnt(events) == Burnt(events[..n]) + {e.id};
    } else {
      assert Hit(events) == {} && Torn(events) == {} && Burnt(events) == {};
    }
  }

  /** Seeing a turn's explosions, then the whole turn that starts with them, is seeing it once. */
  lemma ExplosionsTwice(w: World, blasts: seq<Event>, rest: seq<Event>)
    requires AllExplosions(blasts)
    ensures Apply(Apply(w, blasts), blasts + rest) == Apply(w, blasts + rest)
  {
    ApplyExplosions(w, blasts);
    ApplyExplosions(Apply(w, blasts), blasts);
    var once, twice := Apply(w, blasts), Apply(Apply(w, blasts), blasts);
    assert twice.positions == once.positions && twice.blocks == once.blocks && twice.bombs == once.bombs;
    ApplyConcat(Apply(w, blasts), blasts, rest);
    ApplyConcat(w, blasts, rest);
  }

  lemma BlastsBurnt(p: Params, g: Game, ids: seq<u32>)
    requires forall i :: 0 <= i < |ids| ==> ids[i] in g.bombs
    ensures Burnt(Blasts(p, g, ids)) == Elems(ids)
  {
    var b := Blasts(p, g, ids);
    forall id | id in ids ensures id in Burnt(b) {
      var i :| 0 <= i < |ids| && ids[i] == id;
      BlastsAt(p, g, ids, i);
      assert b[i] in b;
    }
    forall id | id in Burnt(b) ensures id in ids {
      var e :| e in b && e.BombExploded? && e.id == id;
      var i :| 0 <= i < |b| && b[i] == e;
      BlastsAt(p, g, ids, i);
    }
  }

  lemma TickKeepsCells(bombs: map<u32, Bomb>, gone: set<u32>)
    ensures Cells(TickAll(bombs) - gone) == Cells(bombs) - gone
  {
  }

  lemma ReplayTurn(turns: seq<TurnInfo>, t: TurnInfo)
    ensures ReplayTurns(turns + [t]) == Apply(ReplayTurns(turns), t.events)
  {
    assert (turns + [t])[..|turns + [t]| - 1] == turns;
  }

  lemma OpeningBurns(p: Params, g: Game)
    ensures Burnt(Opening(p, g)) == Dying(g)
  {
    BlastsBurnt(p, g, Sorted32(Dying(g)));
  }

  lemma BeginTurnMirrors(p: Params, g: Game, r: Game)
    requires g.started && Shaped(g) && Mirrored(g) && Settled(g) && g.turn < 0xFFFF && r == BeginTurn(p, g)
    ensures Mirrored(r)
  {
    hide BeginTurn, Opening, Dying, Apply, Hit, Torn, Burnt, TickAll, Cells, ReplayTurns;
    BeginTurnLog(p, g, r);
    ReplayTurn(g.turns, TurnInfo(g.turn + 1, Opening(p, g)));
    OpeningBurns(p, g);
    TickKeepsCells(g.bombs, Dying(g));
    ApplyExplosions(Live(g), Opening(p, g));
    assert g.positions - {} == g.positions;
  }

  // ---------- Seeding, actions, respawning ----------

  lemma {:induction false} SeedPlayersMirrors(p: Params, rng: Rng, g: Game, ids: seq<u8>)
    requires p.Valid() && g.started && Shaped(g) && Mirrored(g) && g.toDestroy == {}
    ensures Mirrored(SeedPlayers(p, rng, g, ids))
  {
    if ids != [] {
      var n := |ids| - 1;
      hide Draw, Apply;
      SeedPlayersMirrors(p, rng, g, ids[..n]);
      var q := SeedPlayers(p, rng, g, ids[..n]);
      ReplayAdd(q.turns, PlayerMoved(ids[n], Draw(p, rng, q.draws)));
      assert q.positions - q.toDestroy == q.positions;
    }
  }

  lemma {:induction false} SeedBlocksMirrors(p: Params, rng: Rng, g: Game, n: nat)
    requires p.Valid() && g.started && Shaped(g) && g.turn == 0 && Mirrored(g)
    ensures Mirrored(SeedBlocks(p, rng, g, n))
  {
    if n > 0 {
      SeedBlocksMirrors(p, rng, g, n - 1);
      var q := SeedBlocks(p, rng, g, n - 1);
      ReplayAdd(q.turns, BlockPlaced(Draw(p, rng, q.draws)));
    }
  }

  lemma OpenGameMirrors(g: Game)
    requires Idle(g)
    ensures Mirrored(OpenGame(g))
  {
    var o := OpenGame(g);
    ReplayTurn([], TurnInfo(0, []));
    assert o.turns == [] + [TurnInfo(0, [])];
    assert o.positions - o.toDestroy == map[] && Cells(o.bombs) == map[];
  }

  lemma StartGameplayMirrors(p: Params, rng: Rng, g: Game)
    requires p.Valid() && Idle(g)
    ensures Mirrored(StartGameplay(p, rng, g))
  {
    hide Mirrored;
    var o, ids := OpenGame(g), Sorted8(g.players.Keys);
    OpenGameMirrors(g);
    SeedPlayersMirrors(p, rng, o, ids);
    SeedBlocksMirrors(p, rng, SeedPlayers(p, rng, o, ids), p.initialBlocks);
  }

  /** One logged effect keeps the mirror when the live state moves as the event says. */
  lemma AddMirrors(g: Game, e: Event, r: Game)
    requires g.started && Shaped(g) && Mirrored(g)
    requires r.turns == AddEvent(g.turns, g.turn, e) && r.turn == g.turn && r.started
    requires Live(r) == ApplyEvent(Live(g), e)
    ensures Mirrored(r)
  {
    ReplayAdd(g.turns, e);
  }

  lemma ActionMirrors(p: Params, g: Game, slot: nat, m: ClientMessage, stale: Position, r: Game)
    requires p.Valid() && g.started && PlayingInv(p, g) && Mirrored(g) && !m.Join? && !Ignored(g, slot)
    requires forall id :: id in g.bombs ==> id < g.nextBomb
    requires (m.PlaceBomb? && HandlePlaceBomb(p, g, slot) == Running(r)) ||
             (m.PlaceBlock? && HandlePlaceBlock(g, slot) == Running(r)) ||
             (m.Move? && HandleMove(p, g, slot, m.direction, stale) == Running(r))
    ensures Mirrored(r)
  {
    var id := g.slots[slot];
    match m
    case PlaceBomb =>
      assert Live(r).bombs == Live(g).bombs[g.nextBomb := g.positions[id]];
      AddMirrors(g, BombPlaced(g.nextBomb, g.positions[id]), r);
    case PlaceBlock =>
      AddMirrors(g, BlockPlaced(g.positions[id]), r);
    case Move(d) =>
      if r != g {
        var c := Target(g.positions[id], d, stale);
        assert r.positions - r.toDestroy == (g.positions - g.toDestroy)[id := c];
        AddMirrors(g, PlayerMoved(id, c), r);
      }
  }

  lemma HandleMirrors(p: Params, rng: Rng, s: Server, slot: nat, m: ClientMessage, address: seq<u8>, stale: Position)
    requires Inv(p, s) && s.control.Polling? && Mirrored(s.game)
    requires forall id :: id in s.game.bombs ==> id < s.game.nextBomb
    requires Handle(p, rng, s.game, slot, m, address, stale).Running?
    ensures Mirrored(Handle(p, rng, s.game, slot, m, address, stale).game)
  {
    var g := s.game;
    var r := Handle(p, rng, g, slot, m, address, stale).game;
    if m.Join? {
      if !g.started && r.started { StartGameplayMirrors(p, rng, Accept(g, slot, m.name, address)); }
    } else if g.started && !Ignored(g, slot) {
      ActionMirrors(p, g, slot, m, stale, r);
    }
  }

  /** Respawning puts the destroyed robots back one by one. */
  lemma {:induction false} RespawnAllMirrors(p: Params, rng: Rng, g: Game, ids: seq<u8>)
    requires p.Valid() && g.started && Shaped(g) && Mirrored(g)
    requires forall i :: 0 <= i < |ids| ==> ids[i] in g.scores
    ensures var r := RespawnAll(p, rng, g, ids);
            ReplayTurns(r.turns) == Live(r.(toDestroy := g.toDestroy - Elems(ids)))
  {
    if ids == [] {
      assert g.toDestroy - Elems(ids) == g.toDestroy;
    } else {
      var n := |ids| - 1;
      RespawnAllMirrors(p, rng, g, ids[..n]);
      var q := RespawnAll(p, rng, g, ids[..n]);
      var r := RespawnAll(p, rng, g, ids);
      var c := Draw(p, rng, q.draws);
      ReplayAdd(q.turns, PlayerMoved(ids[n], c));
      ElemsAppend(ids);
      PutBack(q.positions, g.toDestroy, Elems(ids[..n]), ids[n], c);
    }
  }

  lemma PutBack(m: map<u8, Position>, gone: set<u8>, back: set<u8>, q: u8, c: Position)
    ensures m[q := c] - (gone - (back + {q})) == (m - (gone - back))[q := c]
  {
  }

  /** At the end of a turn the log reproduces the whole live state: every robot's cell, every block,
      every bomb. */
  lemma CloseTurnMirrors(p: Params, rng: Rng, g: Game)
    requires p.Valid() && g.started && Shaped(g) && Mirrored(g) && g.toDestroy <= g.scores.Keys
    ensures var r := CloseTurn(p, rng, g);
            Mirrored(r) && ReplayTurns(r.turns) == World(r.positions, r.blocks, Cells(r.bombs))
  {
    hide RespawnAll, ReplayTurns, Cells;
    var ids := Sorted8(g.toDestroy);
    RespawnAllMirrors(p, rng, g, ids);
    assert g.toDestroy - Elems(ids) == {};
    assert RespawnAll(p, rng, g, ids).positions - {} == RespawnAll(p, rng, g, ids).positions;
  }
}
