/** Every game is a first game: a server that has finished games behaves, step for step, like a
    fresh one whose random stream starts where the finished games left it. */
module LaterGames {
  import opened Types
  import opened Ordered
  import opened Blast
  import opened GameSpec
  import opened Runs

  /** The stream from draw `d` on. */
  function Tail(rng: Rng, d: nat): Rng { (k: nat) => rng(k + d) }

  /** The same game played after `d` earlier draws and the earlier messages `o`. */
  function After(g: Game, d: nat, o: seq<Outgoing>): Game {
    g.(draws := g.draws + d, out := o + g.out)
  }

  function ServerAfter(s: Server, d: nat, o: seq<Outgoing>): Server {
    s.(game := After(s.game, d, o), base := s.base + d)
  }

  function ResultAfter(r: Result, d: nat, o: seq<Outgoing>): Result {
    match r case Dead => Dead case Alive(s) => Alive(ServerAfter(s, d, o))
  }

  lemma {:induction false} ExplodeAllAfter(p: Params, g: Game, ids: seq<u32>, d: nat, o: seq<Outgoing>)
    requires g.turn < |g.turns| && forall i :: 0 <= i < |ids| ==> ids[i] in g.bombs
    ensures ExplodeAll(p, After(g, d, o), ids) == After(ExplodeAll(p, g, ids), d, o)
  {
    if ids != [] {
      hide Explosion;
      ExplodeAllAfter(p, g, ids[..|ids| - 1], d, o);
    }
  }

  lemma BeginTurnAfter(p: Params, g: Game, d: nat, o: seq<Outgoing>)
    requires g.started && Shaped(g) && g.turn < 0xFFFF
    ensures BeginTurn(p, After(g, d, o)) == After(BeginTurn(p, g), d, o)
  {
    hide ExplodeAll;
    var g1 := OpenTurn(g);
    ExplodeAllAfter(p, g1, Sorted32(Expired(g1.bombs)), d, o);
  }

  lemma DrawAfter(p: Params, rng: Rng, k: nat, d: nat)
    requires p.Valid()
    ensures Draw(p, rng, k + d) == Draw(p, Tail(rng, d), k)
  {
  }

  lemma SeedPlayerAfter(p: Params, rng: Rng, g: Game, id: u8, d: nat, o: seq<Outgoing>)
    requires p.Valid() && g.turn < |g.turns|
    ensures SeedPlayer(p, rng, After(g, d, o), id) == After(SeedPlayer(p, Tail(rng, d), g, id), d, o)
  {
    hide Draw;
    DrawAfter(p, rng, g.draws, d);
  }

  lemma RespawnAfter(p: Params, rng: Rng, g: Game, id: u8, d: nat, o: seq<Outgoing>)
    requires p.Valid() && g.turn < |g.turns| && id in g.scores
    ensures Respawn(p, rng, After(g, d, o), id) == After(Respawn(p, Tail(rng, d), g, id), d, o)
  {
    hide SeedPlayer;
    SeedPlayerAfter(p, rng, g.(scores := g.scores[id := Add32(g.scores[id], 1)]), id, d, o);
  }

  lemma {:induction false} SeedPlayersAfter(p: Params, rng: Rng, g: Game, ids: seq<u8>, d: nat, o: seq<Outgoing>)
    requires p.Valid() && g.turn < |g.turns|
    ensures SeedPlayers(p, rng, After(g, d, o), ids) == After(SeedPlayers(p, Tail(rng, d), g, ids), d, o)
  {
    if ids != [] {
      hide SeedPlayer;
      var n := |ids| - 1;
      SeedPlayersAfter(p, rng, g, ids[..n], d, o);
      SeedPlayerAfter(p, rng, SeedPlayers(p, Tail(rng, d), g, ids[..n]), ids[n], d, o);
    }
  }

  lemma {:induction false} SeedBlocksAfter(p: Params, rng: Rng, g: Game, n: nat, d: nat, o: seq<Outgoing>)
    requires p.Valid() && g.turns != []
    ensures SeedBlocks(p, rng, After(g, d, o), n) == After(SeedBlocks(p, Tail(rng, d), g, n), d, o)
  {
    if n > 0 {
      hide Draw;
      SeedBlocksAfter(p, rng, g, n - 1, d, o);
      DrawAfter(p, rng, SeedBlocks(p, Tail(rng, d), g, n - 1).draws, d);
    }
  }

  lemma AfterKeeps(g: Game, d: nat, o: seq<Outgoing>)
    ensures After(g, d, o).scores == g.scores && After(g, d, o).turn == g.turn && After(g, d, o).turns == g.turns
  {
  }

  lemma {:induction false} RespawnAllAfter(p: Params, rng: Rng, g: Game, ids: seq<u8>, d: nat, o: seq<Outgoing>)
    requires p.Valid() && g.turn < |g.turns| && forall i :: 0 <= i < |ids| ==> ids[i] in g.scores
    ensures RespawnAll(p, rng, After(g, d, o), ids) == After(RespawnAll(p, Tail(rng, d), g, ids), d, o)
  {
    hide Respawn, After;
    AfterKeeps(g, d, o);
    if ids != [] {
      var n := |ids| - 1;
      RespawnAllAfter(p, rng, g, ids[..n], d, o);
      RespawnAfter(p, rng, RespawnAll(p, Tail(rng, d), g, ids[..n]), ids[n], d, o);
    }
  }

  lemma StartGameplayAfter(p: Params, rng: Rng, g: Game, d: nat, o: seq<Outgoing>)
    requires p.Valid() && !g.started && Shaped(g)
    ensures StartGameplay(p, rng, After(g, d, o)) == After(StartGameplay(p, Tail(rng, d), g), d, o)
  {
    hide SeedPlayers, SeedBlocks;
    var g1, ids := OpenGame(g), Sorted8(g.players.Keys);
    Associates(o, g.out, [ToAll(GameStarted(g.players))]);
    assert OpenGame(After(g, d, o)) == After(g1, d, o);
    SeedPlayersAfter(p, rng, g1, ids, d, o);
    SeedBlocksAfter(p, rng, SeedPlayers(p, Tail(rng, d), g1, ids), p.initialBlocks, d, o);
  }

  lemma JoinAfter(p: Params, rng: Rng, g: Game, slot: nat, name: seq<u8>, address: seq<u8>, d: nat, o: seq<Outgoing>)
    requires p.Valid() && Shaped(g)
    ensures HandleJoin(p, rng, After(g, d, o), slot, name, address) ==
            After(HandleJoin(p, Tail(rng, d), g, slot, name, address), d, o)
  {
    hide StartGameplay;
    if !g.started {
      var a := Accept(g, slot, name, address);
      Associates(o, g.out, [ToAll(AcceptedPlayer(g.nextPlayer, Player(name, address)))]);
      assert Accept(After(g, d, o), slot, name, address) == After(a, d, o);
      if |a.players| == p.playersCount { StartGameplayAfter(p, rng, a, d, o); }
    }
  }

  lemma HandleAfter(p: Params, rng: Rng, g: Game, slot: nat, m: ClientMessage, address: seq<u8>, stale: Position,
      d: nat, o: seq<Outgoing>)
    requires p.Valid() && Shaped(g)
    ensures var r := Handle(p, Tail(rng, d), g, slot, m, address, stale);
            Handle(p, rng, After(g, d, o), slot, m, address, stale) ==
            if r.Crashed? then Crashed else Running(After(r.game, d, o))
  {
    if m.Join? { JoinAfter(p, rng, g, slot, m.name, address, d, o); }
  }

  lemma CloseTurnAfter(p: Params, rng: Rng, g: Game, d: nat, o: seq<Outgoing>)
    requires p.Valid() && g.started && Shaped(g) && g.toDestroy <= g.scores.Keys
    ensures CloseTurn(p, rng, After(g, d, o)) == After(CloseTurn(p, Tail(rng, d), g), d, o)
  {
    hide RespawnAll;
    RespawnAllAfter(p, rng, g, Sorted8(g.toDestroy), d, o);
    var r := RespawnAll(p, Tail(rng, d), g, Sorted8(g.toDestroy));
    Associates(o, r.out, [ToAll(Turn(r.turns[r.turn]))]);
  }

  /** One step commutes with moving the game along the stream. */
  lemma NextAfter(p: Params, rng: Rng, s: Server, step: Step, d: nat, o: seq<Outgoing>)
    requires p.Valid() && Shaped(s.game) && Enabled(p, s, step)
    ensures Next(p, rng, ServerAfter(s, d, o), step) == ResultAfter(Next(p, Tail(rng, d), s, step), d, o)
  {
    hide BeginTurn, CloseTurn, Handle, Greeting;
    match step
    case StartRound =>
      if s.game.started { BeginTurnAfter(p, s.game, d, o); }
    case AcceptClient =>
      assert Greeting(p, After(s.game, d, o), GREETED_SLOT) == Greeting(p, s.game, GREETED_SLOT) by {
        GreetingAfter(p, s.game, d, o);
      }
      Associates(o, s.game.out, Greeting(p, s.game, GREETED_SLOT));
    case Receive(slot, m, address, stale) => HandleAfter(p, rng, s.game, slot, m, address, stale, d, o);
    case EndRound =>
      if s.game.started { CloseTurnAfter(p, rng, s.game, d, o); }
    case Continue =>
      Associates(o, s.game.out, [ToAll(GameEnded(s.game.scores))]);
  }

  lemma GreetingAfter(p: Params, g: Game, d: nat, o: seq<Outgoing>)
    ensures Greeting(p, After(g, d, o), GREETED_SLOT) == Greeting(p, g, GREETED_SLOT)
  {
  }

  lemma {:induction false} LeadsAfter(p: Params, rng: Rng, s: Server, steps: seq<Step>, s': Server, d: nat,
      o: seq<Outgoing>)
    requires p.Valid()
    ensures Leads(p, Tail(rng, d), s, steps, s') <==> Leads(p, rng, ServerAfter(s, d, o), steps, ServerAfter(s', d, o))
    decreases |steps|
  {
    hide Next;
    if steps == [] {
      if ServerAfter(s, d, o) == ServerAfter(s', d, o) {
        assert (o + s.game.out)[|o|..] == s.game.out && (o + s'.game.out)[|o|..] == s'.game.out;
      }
    } else if Shaped(s.game) && Enabled(p, s, steps[0]) {
      NextAfter(p, rng, s, steps[0], d, o);
      var r := Next(p, Tail(rng, d), s, steps[0]);
      if r.Alive? { LeadsAfter(p, rng, r.server, steps[1..], s', d, o); }
    }
  }

  lemma EnabledAfter(p: Params, s: Server, step: Step, d: nat, o: seq<Outgoing>)
    ensures Enabled(p, ServerAfter(s, d, o), step) == Enabled(p, s, step)
    ensures Shaped(ServerAfter(s, d, o).game) == Shaped(s.game)
  {
  }

  /** Every run of the moved game is a moved run. */
  lemma {:induction false} RunsAreMoved(p: Params, rng: Rng, s: Server, steps: seq<Step>, t: Server, d: nat,
      o: seq<Outgoing>) returns (s': Server)
    requires p.Valid() && Leads(p, rng, ServerAfter(s, d, o), steps, t)
    ensures Leads(p, Tail(rng, d), s, steps, s') && t == ServerAfter(s', d, o)
    decreases |steps|
  {
    hide Next, Enabled, Shaped, ServerAfter;
    if steps == [] {
      s' := s;
    } else {
      EnabledAfter(p, s, steps[0], d, o);
      NextAfter(p, rng, s, steps[0], d, o);
      s' := RunsAreMoved(p, rng, Next(p, Tail(rng, d), s, steps[0]).server, steps[1..], t, d, o);
    }
  }

  /** Moving the game along the stream does not change whether the steps kill it. */
  lemma DiesAlike(p: Params, rng: Rng, s: Server, steps: seq<Step>, d: nat, o: seq<Outgoing>)
    requires p.Valid()
    ensures Dies(p, Tail(rng, d), s, steps) <==> Dies(p, rng, ServerAfter(s, d, o), steps)
  {
    hide Next, Enabled, Shaped, ServerAfter, Leads;
    if Dies(p, Tail(rng, d), s, steps) {
      var k, mid :| 0 <= k < |steps| && Leads(p, Tail(rng, d), s, steps[..k], mid) && Shaped(mid.game) &&
                    Enabled(p, mid, steps[k]) && Next(p, Tail(rng, d), mid, steps[k]).Dead?;
      LeadsAfter(p, rng, s, steps[..k], mid, d, o);
      EnabledAfter(p, mid, steps[k], d, o);
      NextAfter(p, rng, mid, steps[k], d, o);
    }
    if Dies(p, rng, ServerAfter(s, d, o), steps) {
      var k, end :| 0 <= k < |steps| && Leads(p, rng, ServerAfter(s, d, o), steps[..k], end) && Shaped(end.game) &&
                    Enabled(p, end, steps[k]) && Next(p, rng, end, steps[k]).Dead?;
      var mid := RunsAreMoved(p, rng, s, steps[..k], end, d, o);
      EnabledAfter(p, mid, steps[k], d, o);
      NextAfter(p, rng, mid, steps[k], d, o);
    }
  }

  /** From an empty lobby reached after any number of games, exactly the runs of a fresh server on
      the rest of the random stream are possible: the same steps lead to the same states, moved along
      the stream, to no others, and die alike. */
  lemma LaterGamesAreFirstGames(p: Params, rng: Rng, s: Server, steps: seq<Step>)
    requires p.Valid() && Reachable(p, rng, s) && !s.game.started && s.game.nextPlayer == 0 && s.control.Top?
    ensures forall t :: Leads(p, rng, s, steps, t) <==>
              exists s' :: Leads(p, Tail(rng, s.game.draws), INITIAL_SERVER, steps, s') &&
                           t == ServerAfter(s', s.game.draws, s.game.out)
    ensures Dies(p, rng, s, steps) <==> Dies(p, Tail(rng, s.game.draws), INITIAL_SERVER, steps)
  {
    hide Leads, Dies;
    EmptyLobbyIsFresh(p, rng, s);
    assert s.game.out + [] == s.game.out;
    assert s == ServerAfter(INITIAL_SERVER, s.game.draws, s.game.out);
    DiesAlike(p, rng, INITIAL_SERVER, steps, s.game.draws, s.game.out);
    forall t
      ensures Leads(p, rng, s, steps, t) <==>
              exists s' :: Leads(p, Tail(rng, s.game.draws), INITIAL_SERVER, steps, s') &&
                           t == ServerAfter(s', s.game.draws, s.game.out)
    {
      if Leads(p, rng, s, steps, t) {
        var s' := RunsAreMoved(p, rng, INITIAL_SERVER, steps, t, s.game.draws, s.game.out);
      }
      forall s' | Leads(p, Tail(rng, s.game.draws), INITIAL_SERVER, steps, s')
        ensures Leads(p, rng, s, steps, ServerAfter(s', s.game.draws, s.game.out))
      {
        LeadsAfter(p, rng, INITIAL_SERVER, steps, s', s.game.draws, s.game.out);
      }
    }
  }
}
