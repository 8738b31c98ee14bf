/** The domain invariant of the server, kept by every step: which keys each map has, how the turn
    log is numbered, what lies on the board. It is what makes every `.at` of the source succeed
    during play. */
module Invariant {
  import opened Types
  import opened Ordered
  import opened Blast
  import opened GameSpec

  /** Player ids are dense, every slot's player is known, and no two slots share one. */
  ghost predicate PlayersInv(p: Params, g: Game) {
    && (forall q: u8 :: q in g.players <==> q < g.nextPlayer)
    && g.scores.Keys == g.players.Keys
    && g.nextPlayer <= p.playersCount
    && (g.started <==> g.nextPlayer == p.playersCount)
    && (forall i :: i in g.slots ==> g.slots[i] < g.nextPlayer)
    && (forall i, j :: i in g.slots && j in g.slots && i != j ==> g.slots[i] != g.slots[j])
    && (forall q :: q in g.players ==> |g.players[q].name| < 0x100 && |g.players[q].address| < 0x100)
  }

  predicate Numbered(turns: seq<TurnInfo>) {
    forall k :: 0 <= k < |turns| ==> turns[k].turn == k
  }

  ghost predicate AllOnBoard(p: Params, g: Game) {
    && (forall q :: q in g.positions ==> OnBoard(p, g.positions[q]))
    && (forall c :: c in g.blocks ==> OnBoard(p, c))
    && (forall id :: id in g.bombs ==> OnBoard(p, g.bombs[id].position))
  }

  ghost predicate PlayingInv(p: Params, g: Game) {
    && Shaped(g) && Numbered(g.turns) && g.turn <= p.gameLength
    && g.positions.Keys == g.players.Keys
    && g.toDestroy <= g.players.Keys
    && AllOnBoard(p, g)
  }

  /** Outside a gameplay everything but the joined players is as in a fresh server. */
  predicate Idle(g: Game) {
    g == INITIAL_GAME.(players := g.players, scores := g.scores, slots := g.slots,
                      nextPlayer := g.nextPlayer, draws := g.draws, out := g.out)
  }

  predicate Settled(g: Game) { g.toDestroy == {} && g.toErase == [] }

  ghost predicate Inv(p: Params, s: Server) {
    && p.Valid()
    && PlayersInv(p, s.game)
    && (if s.game.started then PlayingInv(p, s.game) else Idle(s.game))
    && match s.control
       case Top => Settled(s.game) && (s.game.started ==> s.game.turn < p.gameLength)
       case Polling(_) => true
       case Closed => s.game.started && Settled(s.game)
  }

  lemma InitialInv(p: Params)
    requires p.Valid()
    ensures Inv(p, INITIAL_SERVER)
  {
  }

  lemma {:induction false} DenseCard(s: set<u8>, n: u8)
    requires forall q: u8 :: q in s <==> q < n
    ensures |s| == n
  {
    if n == 0 {
      if s != {} { var x := Member(s); assert false; }
    } else {
      DenseCard(s - {n - 1}, n - 1);
    }
  }

  lemma DenseSize(m: map<u8, Player>, n: u8)
    requires forall q: u8 :: q in m <==> q < n
    ensures |m| == n
  {
    DenseCard(m.Keys, n);
    assert |m| == |m.Keys|;
  }

  lemma {:induction false} ExplodeAllKeeps(p: Params, g: Game, ids: seq<u32>)
    requires g.started && PlayingInv(p, g) && forall i :: 0 <= i < |ids| ==> ids[i] in g.bombs
    ensures PlayingInv(p, ExplodeAll(p, g, ids))
  {
    if ids != [] {
      var n := |ids| - 1;
      ExplodeAllKeeps(p, g, ids[..n]);
      var r := ExplodeAll(p, g, ids[..n]);
      ExplosionIsExact(p, r.positions, r.blocks, ids[n], r.bombs[ids[n]].position);
    }
  }

  lemma BeginTurnKeeps(p: Params, g: Game)
    requires g.started && PlayingInv(p, g) && g.turn < p.gameLength
    ensures PlayingInv(p, BeginTurn(p, g))
  {
    var o := OpenTurn(g);
    ExplodeAllKeeps(p, o, Sorted32(Expired(o.bombs)));
  }

  lemma {:induction false} SeedPlayersKeeps(p: Params, rng: Rng, g: Game, ids: seq<u8>)
    requires p.Valid() && Shaped(g) && g.started && Numbered(g.turns) && AllOnBoard(p, g)
    ensures var r := SeedPlayers(p, rng, g, ids);
            Numbered(r.turns) && AllOnBoard(p, r) && r.positions.Keys == g.positions.Keys + Elems(ids)
  {
    if ids != [] {
      SeedPlayersKeeps(p, rng, g, ids[..|ids| - 1]);
      assert ids == ids[..|ids| - 1] + [ids[|ids| - 1]];
    }
  }

  lemma {:induction false} SeedBlocksKeeps(p: Params, rng: Rng, g: Game, n: nat)
    requires p.Valid() && g.turns != [] && Numbered(g.turns) && AllOnBoard(p, g)
    ensures var r := SeedBlocks(p, rng, g, n); Numbered(r.turns) && AllOnBoard(p, r)
  {
    if n > 0 { SeedBlocksKeeps(p, rng, g, n - 1); }
  }

  lemma StartGameplayKeeps(p: Params, rng: Rng, g: Game)
    requires p.Valid() && Idle(g)
    ensures var r := StartGameplay(p, rng, g);
            r.started && PlayingInv(p, r) && r.players == g.players && r.scores == g.scores &&
            r.slots == g.slots && r.nextPlayer == g.nextPlayer
  {
    hide SeedPlayers, SeedBlocks, Sorted, Ascending;
    var o := OpenGame(g);
    var ids := Sorted8(g.players.Keys);
    assert Elems(ids) == g.players.Keys && o.positions.Keys == {};
    assert Shaped(o) && Numbered(o.turns) && AllOnBoard(p, o);
    SeedPlayersKeeps(p, rng, o, ids);
    SeedBlocksKeeps(p, rng, SeedPlayers(p, rng, o, ids), p.initialBlocks);
  }

  lemma AcceptKeeps(p: Params, g: Game, slot: nat, name: seq<u8>, address: seq<u8>)
    requires p.Valid() && PlayersInv(p, g) && Idle(g) && |name| < 0x100 && |address| < 0x100
    ensures var a := Accept(g, slot, name, address);
            && Idle(a) && a.nextPlayer == g.nextPlayer + 1 <= p.playersCount && |a.players| == a.nextPlayer
            && PlayersInv(p, a.(started := a.nextPlayer == p.playersCount))
  {
    var a := Accept(g, slot, name, address);
    assert a.players == g.players[g.nextPlayer := Player(name, address)];
    assert a.scores.Keys == a.players.Keys;
    AcceptSlots(g.slots, slot, g.nextPlayer);
    DenseSize(a.players, a.nextPlayer);
  }

  /** A fresh id keeps the slot table injective. */
  lemma AcceptSlots(slots: map<nat, u8>, slot: nat, id: u8)
    requires forall i :: i in slots ==> slots[i] < id
    requires forall i, j :: i in slots && j in slots && i != j ==> slots[i] != slots[j]
    ensures var t := slots[slot := id];
            && (forall i :: i in t ==> t[i] <= id)
            && (forall i, j :: i in t && j in t && i != j ==> t[i] != t[j])
  {
  }

  lemma JoinKeeps(p: Params, rng: Rng, g: Game, slot: nat, name: seq<u8>, address: seq<u8>, r: Game)
    requires p.Valid() && PlayersInv(p, g) && Idle(g) && |name| < 0x100 && |address| < 0x100
    requires r == HandleJoin(p, rng, g, slot, name, address)
    ensures PlayersInv(p, r) && if r.started then PlayingInv(p, r) else Idle(r)
  {
    var a := Accept(g, slot, name, address);
    AcceptKeeps(p, g, slot, name, address);
    if |a.players| == p.playersCount {
      StartGameplayKeeps(p, rng, a);
    }
  }

  lemma ActionKeeps(p: Params, rng: Rng, g: Game, slot: nat, m: ClientMessage, address: seq<u8>, stale: Position)
    requires p.Valid() && g.started && PlayersInv(p, g) && PlayingInv(p, g) && !m.Join?
    ensures var r := Handle(p, rng, g, slot, m, address, stale);
            r.Running? && r.game.started && PlayersInv(p, r.game) && PlayingInv(p, r.game)
  {
  }

  /** Handling a message keeps the invariant, and dies exactly on an action sent before the game
      starts by a slot that has joined. */
  lemma HandleKeeps(p: Params, rng: Rng, s: Server, slot: nat, m: ClientMessage, address: seq<u8>, stale: Position)
    requires Inv(p, s) && s.control.Polling? && Enabled(p, s, Receive(slot, m, address, stale))
    ensures var r := Handle(p, rng, s.game, slot, m, address, stale);
            && (r.Crashed? <==> !s.game.started && slot in s.game.slots && !m.Join?)
            && (r.Running? ==> Inv(p, s.(game := r.game)))
  {
    var g := s.game;
    if m.Join? && !g.started {
      JoinKeeps(p, rng, g, slot, m.name, address, HandleJoin(p, rng, g, slot, m.name, address));
    } else if !m.Join? && g.started {
      ActionKeeps(p, rng, g, slot, m, address, stale);
    }
  }

  lemma {:induction false} RespawnAllKeeps(p: Params, rng: Rng, g: Game, ids: seq<u8>)
    requires p.Valid() && g.started && PlayingInv(p, g) && g.scores.Keys == g.players.Keys
    requires forall i :: 0 <= i < |ids| ==> ids[i] in g.scores
    ensures PlayingInv(p, RespawnAll(p, rng, g, ids))
  {
    if ids != [] { RespawnAllKeeps(p, rng, g, ids[..|ids| - 1]); }
  }

  /** Every step the loop can take keeps the invariant, and only an action in the lobby kills the
      server. */
  lemma InvNext(p: Params, rng: Rng, s: Server, step: Step)
    requires Inv(p, s) && Enabled(p, s, step)
    ensures Next(p, rng, s, step).Dead? <==>
            step.Receive? && !s.game.started && step.slot in s.game.slots && !step.message.Join?
    ensures Next(p, rng, s, step).Alive? ==> Inv(p, Next(p, rng, s, step).server)
  {
    match step
    case StartRound =>
      if s.game.started { BeginTurnKeeps(p, s.game); }
    case AcceptClient =>
    case Receive(slot, m, address, stale) => HandleKeeps(p, rng, s, slot, m, address, stale);
    case EndRound =>
      if s.game.started { RespawnAllKeeps(p, rng, s.game, Sorted8(s.game.toDestroy)); }
    case Continue =>
  }

  /** What a step relies on beyond the loop's own control position always holds. */
  lemma InvEnables(p: Params, s: Server)
    requires Inv(p, s)
    ensures Shaped(s.game)
    ensures s.control.Top? ==> Enabled(p, s, StartRound)
    ensures s.control.Polling? ==> Enabled(p, s, EndRound)
    ensures s.control.Closed? ==> Enabled(p, s, Continue)
  {
  }
}
