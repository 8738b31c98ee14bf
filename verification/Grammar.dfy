/** The shape of every turn in the log: explosions in ascending bomb id (in turn 0: the seeding),
    then one event per effective action, each explained by its player's message and the board it
    was made on, then one respawn per destroyed player in ascending id. */
module Grammar {
  import opened Types
  import opened Ordered
  import opened Blast
  import opened GameSpec
  import opened Invariant
  import opened TurnLog
  import opened Replay

  /** An explosion of a bomb of the board `w`, listing exactly the robots and the blocks in its blast,
      nearest first, none twice and at most four blocks: only the bomb's own cell when that holds one. */
  ghost predicate TrueBlast(p: Params, w: World, e: Event) {
    && e.BombExploded? && e.id in w.bombs
    && var o := w.bombs[e.id];
       && (forall q: u8 :: q in e.robots <==> q in w.positions && InBlast(p, w.blocks, o, w.positions[q]))
       && (forall c :: c in e.blocks <==> c in w.blocks && InBlast(p, w.blocks, o, c))
       && Distinct(e.robots) && Distinct(e.blocks) && |e.blocks| <= 4 && (o in w.blocks ==> e.blocks == [o])
       && RobotsClimb(o, w.positions, e.robots) && Climbs(o, e.blocks)
  }

  /** How a turn opens on the board `before`. Turn 0 puts every player, then the initial blocks, on
      the board; a later one starts with explosions, all of them as they are on the board before. */
  ghost predicate Opens(p: Params, t: nat, before: World, opening: seq<Event>) {
    if t == 0 then
      && |opening| == p.playersCount + p.initialBlocks
      && (forall k :: 0 <= k < p.playersCount ==>
            opening[k].PlayerMoved? && opening[k].player == k && OnBoard(p, opening[k].position))
      && (forall k :: p.playersCount <= k < |opening| ==> opening[k].BlockPlaced? && OnBoard(p, opening[k].position))
    else
      && (forall k :: 0 <= k < |opening| ==> TrueBlast(p, before, opening[k]))
      && forall i, j :: 0 <= i < j < |opening| ==> opening[i].id < opening[j].id
  }

  /** What a player's message may have written, given the board `w` it acted on. A move in a proper
      direction goes exactly one cell that way, without wrapping, onto a free cell of the board. */
  predicate Justified(p: Params, w: World, a: Act, e: Event) {
    && a.player in w.positions
    && var c := w.positions[a.player];
       match a.message
       case Join(_) => false
       case PlaceBomb => e.BombPlaced? && e.position == c
       case PlaceBlock => e == BlockPlaced(c)
       case Move(d) =>
         && e.PlayerMoved? && e.player == a.player
         && OnBoard(p, e.position) && e.position !in w.blocks
         && (IsDirection(d) ==> Straight(c, d, 1, e.position))
  }

  predicate DistinctPlayers(acts: seq<Act>) {
    forall j, k :: 0 <= j < k < |acts| ==> acts[j].player != acts[k].player
  }

  /** A turn under way: its opening, then its actions, by distinct players none of whom was hit. */
  ghost predicate UnderWay(p: Params, t: nat, before: World, events: seq<Event>, acts: seq<Act>) {
    && |acts| <= |events|
    && var i := |events| - |acts|;
       && Opens(p, t, before, events[..i])
       && DistinctPlayers(acts)
       && forall k :: 0 <= k < |acts| ==>
            acts[k].player !in Hit(events) && Justified(p, Apply(before, events[..i + k]), acts[k], events[i + k])
  }

  /** A finished turn: the same, and then the respawns. */
  ghost predicate Finished(p: Params, t: nat, before: World, events: seq<Event>, acts: seq<Act>) {
    var hit := Sorted8(Hit(events));
    && |hit| <= |events|
    && var n := |events| - |hit|;
       && UnderWay(p, t, before, events[..n], acts)
       && forall k :: 0 <= k < |hit| ==>
            events[n + k].PlayerMoved? && events[n + k].player == hit[k] && OnBoard(p, events[n + k].position)
  }

  /** The players who acted this round hold slots already served. */
  ghost predicate Served(slots: map<nat, u8>, next: nat, acts: seq<Act>) {
    forall k :: 0 <= k < |acts| ==> Below(slots, next, acts[k].player)
  }

  ghost predicate Below(slots: map<nat, u8>, next: nat, q: u8) {
    exists i :: i in slots && i < next && slots[i] == q
  }

  ghost predicate PastTurns(p: Params, turns: seq<TurnInfo>, acts: seq<seq<Act>>, n: nat)
    requires n <= |turns| && n <= |acts|
  {
    forall t :: 0 <= t < n ==> Finished(p, t, ReplayTurns(turns[..t]), turns[t].events, acts[t])
  }

  ghost predicate CurrentTurn(p: Params, g: Game, next: nat, acts: seq<seq<Act>>)
    requires |g.turns| == g.turn + 1 == |acts|
  {
    && UnderWay(p, g.turn, ReplayTurns(g.turns[..g.turn]), g.turns[g.turn].events, acts[g.turn])
    && g.toDestroy == Hit(g.turns[g.turn].events)
    && Served(g.slots, next, acts[g.turn])
    && (next == 0 ==> g.turn > 0)
  }

  ghost predicate GrammarInv(p: Params, s: Server) {
    s.game.started ==>
      && |s.game.turns| == s.game.turn + 1 == |s.acts|
      && (if s.control.Polling?
          then PastTurns(p, s.game.turns, s.acts, s.game.turn) && CurrentTurn(p, s.game, s.control.next, s.acts)
          else PastTurns(p, s.game.turns, s.acts, |s.game.turns|))
  }

  lemma PastKept(p: Params, turns: seq<TurnInfo>, acts: seq<seq<Act>>, n: nat, turns': seq<TurnInfo>,
      acts': seq<seq<Act>>)
    requires n <= |turns| && n <= |acts| && n <= |turns'| && n <= |acts'|
    requires PastTurns(p, turns, acts, n) && turns'[..n] == turns[..n] && acts'[..n] == acts[..n]
    ensures PastTurns(p, turns', acts', n)
  {
    forall t | 0 <= t < n
      ensures Finished(p, t, ReplayTurns(turns'[..t]), turns'[t].events, acts'[t])
    {
      assert turns'[..t] == turns'[..n][..t] == turns[..n][..t] == turns[..t];
      assert turns'[t] == turns'[..n][t] && acts'[t] == acts'[..n][t];
    }
  }

  // ---------- begin_turn ----------

  /** An explosion computed on the live board is a true blast of the observed one. */
  lemma ExplosionIsTrue(p: Params, g: Game, id: u32)
    requires AllOnBoard(p, g) && g.toDestroy == {} && id in g.bombs
    ensures TrueBlast(p, Live(g), Explosion(p, g.positions, g.blocks, id, g.bombs[id].position))
  {
    hide Explosion, InBlast, RobotsClimb, Climbs;
    ExplosionIsExact(p, g.positions, g.blocks, id, g.bombs[id].position);
    ExplosionLists(p, g.positions, g.blocks, id, g.bombs[id].position);
    ExplosionOrder(p, g.positions, g.blocks, id, g.bombs[id].position);
    assert g.positions - {} == g.positions;
  }

  /** An ascending key tells the elements of a list apart and fixes their order. */
  lemma SameByKey<T>(a: seq<T>, b: seq<T>, key: T -> int)
    requires forall x :: x in a <==> x in b
    requires forall i, j :: 0 <= i < j < |a| ==> key(a[i]) < key(a[j])
    requires forall i, j :: 0 <= i < j < |b| ==> key(b[i]) < key(b[j])
    ensures a == b
  {
    var ka, kb := seq(|a|, i requires 0 <= i < |a| => key(a[i])), seq(|b|, i requires 0 <= i < |b| => key(b[i]));
    forall k ensures k in ka <==> k in kb {
      if k in ka {
        var i :| 0 <= i < |ka| && ka[i] == k;
        assert a[i] in b;
        var j :| 0 <= j < |b| && b[j] == a[i];
        assert kb[j] == k;
      }
      if k in kb {
        var j :| 0 <= j < |kb| && kb[j] == k;
        assert b[j] in a;
        var i :| 0 <= i < |a| && a[i] == b[j];
        assert ka[i] == k;
      }
    }
    AscendingUnique(ka, kb);
    forall i | 0 <= i < |a| ensures a[i] == b[i] {
      assert a[i] in b;
      var j :| 0 <= j < |b| && b[j] == a[i];
      assert kb[j] == ka[i] == kb[i];
    }
  }

  /** The board before a turn determines each explosion it opens with, to the order of its lists. */
  lemma BlastIsDetermined(p: Params, w: World, e: Event, f: Event)
    requires TrueBlast(p, w, e) && TrueBlast(p, w, f) && e.id == f.id
    ensures e == f
  {
    hide InBlast, Rank;
    var o := w.bombs[e.id];
    SameByKey(e.blocks, f.blocks, (c: Position) => Rank(o, c));
    var key := (q: u8) => if q in w.positions then 256 * Rank(o, w.positions[q]) + q else 0;
    SameByKey(e.robots, f.robots, key);
  }

  lemma OpeningBlasts(p: Params, g: Game, k: nat)
    requires AllOnBoard(p, g) && g.toDestroy == {} && k < |Opening(p, g)|
    ensures TrueBlast(p, Live(g), Opening(p, g)[k])
    ensures Opening(p, g)[k].BombExploded? && Opening(p, g)[k].id == Sorted32(Dying(g))[k]
  {
    hide Explosion, TrueBlast, AllOnBoard, Live, Dying, Blasts, Sorted;
    var ids := Sorted32(Dying(g));
    DyingLive(g);
    BlastsAt(p, g, ids, k);
    ExplosionIsTrue(p, g, ids[k]);
  }

  lemma OpeningOpens(p: Params, g: Game, t: nat)
    requires t > 0 && AllOnBoard(p, g) && g.toDestroy == {}
    ensures Opens(p, t, Live(g), Opening(p, g))
  {
    hide TrueBlast, Live, AllOnBoard, Opening, Dying, Sorted;
    forall k: nat | k < |Opening(p, g)|
      ensures TrueBlast(p, Live(g), Opening(p, g)[k])
      ensures Opening(p, g)[k].BombExploded? && Opening(p, g)[k].id == Sorted32(Dying(g))[k]
    {
      OpeningBlasts(p, g, k);
    }
  }

  lemma BeginTurnShape(p: Params, s: Server, r: Game)
    requires GrammarInv(p, s) && s.game.started && s.control.Top? && Shaped(s.game) && Settled(s.game)
    requires AllOnBoard(p, s.game) && Mirrored(s.game)
    requires s.game.turn < 0xFFFF && r == BeginTurn(p, s.game)
    ensures r.started && GrammarInv(p, Server(r, Polling(0), s.base, s.born, s.acts + [[]]))
  {
    hide BeginTurn, Opening, Opens, UnderWay, Finished, Hit, AllOnBoard, Live;
    var g := s.game;
    BeginTurnLog(p, g, r);
    OpeningOpens(p, g, r.turn);
    PastKept(p, g.turns, s.acts, |g.turns|, r.turns, s.acts + [[]]);
    FreshUnderWay(p, r.turn, ReplayTurns(g.turns), r.turns[r.turn].events);
  }

  // ---------- start_gameplay ----------

  lemma SortedDense(s: set<u8>, n: u8)
    requires forall q: u8 :: q in s <==> q < n
    ensures Sorted8(s) == seq(n, i => i)
  {
    var r := seq(n, i => i);
    forall x ensures x in r <==> 0 <= x < n {
      if 0 <= x < n { assert r[x] == x; }
    }
    forall x ensures x in Sorted8(s) <==> 0 <= x < n {
      if 0 <= x < n { assert x in s; }
    }
    AscendingUnique(Sorted8(s), r);
  }

  lemma SeedOpens(p: Params, moves: seq<Event>, walls: seq<Event>)
    requires |moves| == p.playersCount && |walls| == p.initialBlocks
    requires forall i :: 0 <= i < |moves| ==>
               moves[i].PlayerMoved? && moves[i].player == i && OnBoard(p, moves[i].position)
    requires forall i :: 0 <= i < |walls| ==> walls[i].BlockPlaced? && OnBoard(p, walls[i].position)
    ensures Opens(p, 0, EMPTY_WORLD, moves + walls) && Hit(moves + walls) == {}
  {
  }

  lemma FreshUnderWay(p: Params, t: nat, before: World, events: seq<Event>)
    requires Opens(p, t, before, events)
    ensures UnderWay(p, t, before, events, [])
  {
    assert events[..|events|] == events;
  }

  lemma StartShape(p: Params, rng: Rng, g: Game, r: Game)
    requires p.Valid() && Idle(g) && r == StartGameplay(p, rng, g)
    requires forall q: u8 :: q in g.players <==> q < p.playersCount
    ensures |r.turns| == 1 && r.turn == 0 && r.started && r.toDestroy == {}
    ensures UnderWay(p, 0, EMPTY_WORLD, r.turns[0].events, []) && Hit(r.turns[0].events) == {}
  {
    hide StartGameplay, Moves, Walls, Opens, Hit, UnderWay;
    StartGameplayLog(p, rng, g, r);
    SortedDense(g.players.Keys, p.playersCount);
    var moves := Moves(p, rng, Sorted8(g.players.Keys), g.draws);
    assert |moves| == p.playersCount;
    SeedOpens(p, moves, Walls(p, rng, p.initialBlocks, g.draws + 2 * |g.players.Keys|));
    FreshUnderWay(p, 0, EMPTY_WORLD, r.turns[0].events);
  }

  lemma JoinShape(p: Params, rng: Rng, s: Server, slot: nat, m: ClientMessage, address: seq<u8>, stale: Position)
    requires Inv(p, s) && !s.game.started && Enabled(p, s, Receive(slot, m, address, stale))
    requires Handle(p, rng, s.game, slot, m, address, stale).Running?
    ensures GrammarInv(p, Record(s, slot, m, Handle(p, rng, s.game, slot, m, address, stale).game))
  {
    hide StartGameplay, UnderWay, Finished, Hit, Sorted8;
    var g, r := s.game, Handle(p, rng, s.game, slot, m, address, stale).game;
    if r.started {
      var a := Accept(g, slot, m.name, address);
      AcceptKeeps(p, g, slot, m.name, address);
      StartShape(p, rng, a, r);
    }
  }

  // ---------- actions ----------

  lemma ActionJustified(p: Params, g: Game, slot: nat, m: ClientMessage, stale: Position)
    requires g.started && PlayersInv(p, g) && PlayingInv(p, g) && Effective(p, g, slot, m, stale)
    ensures Justified(p, Live(g), Act(g.slots[slot], m), ActionEvent(g, slot, m, stale))
  {
  }

  lemma UnderWayGrows(p: Params, t: nat, before: World, events: seq<Event>, acts: seq<Act>, e: Event, a: Act)
    requires UnderWay(p, t, before, events, acts) && !e.BombExploded?
    requires a.player !in Hit(events) && Justified(p, Apply(before, events), a, e)
    requires forall k :: 0 <= k < |acts| ==> acts[k].player != a.player
    ensures Hit(events + [e]) == Hit(events)
    ensures UnderWay(p, t, before, events + [e], acts + [a])
  {
    hide Justified, Opens, Apply;
    var events', acts', i := events + [e], acts + [a], |events| - |acts|;
    assert Hit(events') == Hit(events);
    assert events'[..i] == events[..i];
    forall k | 0 <= k < |acts'|
      ensures acts'[k].player !in Hit(events')
              && Justified(p, Apply(before, events'[..i + k]), acts'[k], events'[i + k])
    {
      if k < |acts| {
        assert events'[..i + k] == events[..i + k];
      } else {
        assert events'[..i + k] == events;
      }
    }
  }

  lemma ServedGrows(slots: map<nat, u8>, next: nat, acts: seq<Act>, slot: nat, a: Act)
    requires Served(slots, next, acts) && next <= slot && slot in slots && a.player == slots[slot]
    requires forall i, j :: i in slots && j in slots && i != j ==> slots[i] != slots[j]
    ensures forall k :: 0 <= k < |acts| ==> acts[k].player != a.player
    ensures Served(slots, slot + 1, acts + [a])
  {
    var acts' := acts + [a];
    forall k | 0 <= k < |acts'|
      ensures Below(slots, slot + 1, acts'[k].player) && (k < |acts| ==> acts[k].player != a.player)
    {
      if k < |acts| {
        assert Below(slots, next, acts[k].player);
        assert acts'[k] == acts[k];
      } else {
        assert slots[slot] == acts'[k].player;
      }
    }
  }

  lemma CurrentGrows(p: Params, s: Server, slot: nat, m: ClientMessage, stale: Position, r: Game)
    requires Inv(p, s) && Mirrored(s.game) && s.game.started && s.control.Polling?
    requires |s.game.turns| == s.game.turn + 1 == |s.acts| && s.control.next <= slot
    requires CurrentTurn(p, s.game, s.control.next, s.acts) && Effective(p, s.game, slot, m, stale)
    requires r.turns == Append(s.game.turns, [ActionEvent(s.game, slot, m, stale)])
    requires r.turn == s.game.turn && r.slots == s.game.slots && r.toDestroy == s.game.toDestroy
    ensures CurrentTurn(p, r, slot + 1, Acted(s, slot, m, r).acts)
  {
    hide UnderWay, Justified, Hit;
    var g, n, e, a := s.game, s.game.turn, ActionEvent(s.game, slot, m, stale), Act(s.game.slots[slot], m);
    assert g.turns == g.turns[..n] + [g.turns[n]];
    ReplayTurn(g.turns[..n], g.turns[n]);
    ActionJustified(p, g, slot, m, stale);
    ServedGrows(g.slots, s.control.next, s.acts[n], slot, a);
    UnderWayGrows(p, n, ReplayTurns(g.turns[..n]), g.turns[n].events, s.acts[n], e, a);
    assert r.turns[..n] == g.turns[..n];
    assert r.turns[n].events == g.turns[n].events + [e];
  }

  lemma ReceiveShape(p: Params, rng: Rng, s: Server, slot: nat, m: ClientMessage, address: seq<u8>, stale: Position)
    requires Inv(p, s) && Mirrored(s.game) && GrammarInv(p, s) && s.game.started
    requires Enabled(p, s, Receive(slot, m, address, stale))
    ensures Handle(p, rng, s.game, slot, m, address, stale).Running?
    ensures GrammarInv(p, Record(s, slot, m, Handle(p, rng, s.game, slot, m, address, stale).game))
  {
    hide Handle, Record, UnderWay, Finished, Mirrored;
    HandleLog(p, rng, s, slot, m, address, stale);
    var g, r := s.game, Handle(p, rng, s.game, slot, m, address, stale).game;
    ActionFrame(p, rng, g, slot, m, address, stale);
    if Effective(p, g, slot, m, stale) {
      CurrentGrows(p, s, slot, m, stale, r);
      PastKept(p, g.turns, s.acts, g.turn, r.turns, Acted(s, slot, m, r).acts);
    } else {
      ServedWeakens(g.slots, s.control.next, slot + 1, s.acts[g.turn]);
    }
  }

  lemma ServedWeakens(slots: map<nat, u8>, next: nat, next': nat, acts: seq<Act>)
    requires Served(slots, next, acts) && next <= next'
    ensures Served(slots, next', acts)
  {
    forall k | 0 <= k < |acts| ensures Below(slots, next', acts[k].player) {
      assert Below(slots, next, acts[k].player);
    }
  }

  // ---------- summarise_turn ----------

  lemma TurnFinishes(p: Params, t: nat, before: World, events: seq<Event>, acts: seq<Act>, moves: seq<Event>)
    requires UnderWay(p, t, before, events, acts)
    requires |moves| == |Hit(events)|
    requires forall k :: 0 <= k < |moves| ==>
               moves[k].PlayerMoved? && moves[k].player == Sorted8(Hit(events))[k] && OnBoard(p, moves[k].position)
    ensures Hit(events + moves) == Hit(events)
    ensures Finished(p, t, before, events + moves, acts)
  {
    hide UnderWay;
    assert Hit(events + moves) == Hit(events);
    assert (events + moves)[..|events|] == events;
  }

  lemma CloseTurnShape(p: Params, rng: Rng, s: Server, r: Game)
    requires GrammarInv(p, s) && s.game.started && s.control.Polling? && Shaped(s.game)
    requires p.Valid() && s.game.toDestroy <= s.game.scores.Keys && r == CloseTurn(p, rng, s.game)
    ensures r.started && GrammarInv(p, s.(game := r, control := Closed))
  {
    hide CloseTurn, Moves, UnderWay, Finished, Hit;
    var g, n := s.game, s.game.turn;
    CloseTurnLog(p, rng, g, r);
    var moves := Moves(p, rng, Sorted8(g.toDestroy), g.draws);
    TurnFinishes(p, n, ReplayTurns(g.turns[..n]), g.turns[n].events, s.acts[n], moves);
    PastKept(p, g.turns, s.acts, n, r.turns, s.acts);
    assert r.turns[..n] == g.turns[..n];
    assert r.turns[n].events == g.turns[n].events + moves;
  }

  lemma GrammarNext(p: Params, rng: Rng, s: Server, step: Step)
    requires Inv(p, s) && Mirrored(s.game) && GrammarInv(p, s) && Enabled(p, s, step) && Next(p, rng, s, step).Alive?
    ensures GrammarInv(p, Next(p, rng, s, step).server)
  {
    hide PastTurns, CurrentTurn;
    match step
    case StartRound =>
      if s.game.started { BeginTurnShape(p, s, BeginTurn(p, s.game)); }
    case AcceptClient => GreetedShape(p, s);
    case Receive(slot, m, address, stale) =>
      if s.game.started {
        ReceiveShape(p, rng, s, slot, m, address, stale);
      } else {
        JoinShape(p, rng, s, slot, m, address, stale);
      }
    case EndRound =>
      if s.game.started { CloseTurnShape(p, rng, s, CloseTurn(p, rng, s.game)); }
    case Continue =>
  }

  lemma GreetedShape(p: Params, s: Server)
    requires GrammarInv(p, s) && s.control == Polling(0)
    ensures GrammarInv(p, s.(game := Greet(p, s.game, GREETED_SLOT), control := Polling(1)))
  {
    if s.game.started { ServedWeakens(s.game.slots, 0, 1, s.acts[s.game.turn]); }
  }
}
