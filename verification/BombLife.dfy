/** The life of a bomb, read off the turn log: placed once, exploding exactly `Fuse` turns later,
    its timer counting the turns between; and how many bombs there can be. */
module BombLife {
  import opened Types
  import opened Ordered
  import opened Blast
  import opened GameSpec
  import opened Invariant
  import opened TurnLog

  function Placement(id: u32): Event -> bool { (e: Event) => e.BombPlaced? && e.id == id }
  function Detonation(id: u32): Event -> bool { (e: Event) => e.BombExploded? && e.id == id }

  /** Turns from a bomb's placement to its explosion. A configured timer of 0 wraps on its first
      tick (game-engine.cpp:82), which makes it the longest fuse of all. */
  function Fuse(p: Params): nat { if p.bombTimer == 0 then 0x1_0000 else p.bombTimer }

  /** The timer `age` turns after placement. */
  function TimerAt(p: Params, age: nat): u16
    requires age < Fuse(p)
  {
    if age <= p.bombTimer then p.bombTimer - age else p.bombTimer - age + 0x1_0000
  }

  predicate Alive(p: Params, born: seq<nat>, turn: nat, id: nat) {
    id < |born| && turn < born[id] + Fuse(p)
  }

  /** Exactly the bombs younger than the fuse are live, each with the timer of its age. */
  ghost predicate TimersInv(p: Params, g: Game, born: seq<nat>) {
    && |born| == g.nextBomb
    && (forall i :: 0 <= i < |born| ==> born[i] <= g.turn)
    && (forall id: u32 :: id in g.bombs <==> Alive(p, born, g.turn, id))
    && (forall id :: id in g.bombs ==> g.bombs[id].timer == TimerAt(p, g.turn - born[id]))
  }

  ghost predicate TurnBombs(p: Params, born: seq<nat>, t: nat, events: seq<Event>) {
    forall id: u32 ::
      && Count(events, Placement(id)) == Flag(id < |born| && born[id] == t)
      && Count(events, Detonation(id)) == Flag(id < |born| && born[id] + Fuse(p) == t)
  }

  /** The log places each bomb once, in the turn it was born, and explodes it once, a fuse later. */
  ghost predicate LogInv(p: Params, turns: seq<TurnInfo>, born: seq<nat>) {
    forall t :: 0 <= t < |turns| ==> TurnBombs(p, born, t, turns[t].events)
  }

  function Since(born: seq<nat>, t: nat): nat { Count(born, (b: nat) => b >= t) }

  function Slack(c: Control): nat {
    if c.Polling? then (if c.next == 0 then 0 else c.next - 1) else CONN_MAX - 1
  }

  /** Each turn places at most one bomb per client slot. */
  ghost predicate CapacityInv(born: seq<nat>, turn: nat, slack: nat) {
    forall t: nat :: t <= turn ==> Since(born, t) <= 25 * (turn - t) + slack
  }

  const IS_BLAST: Event -> bool := (e: Event) => e.BombExploded?

  /** All explosions in the log. */
  function Blown(turns: seq<TurnInfo>): nat {
    if turns == [] then 0 else
      var n := |turns| - 1;
      Blown(turns[..n]) + Count(turns[n].events, IS_BLAST)
  }

  /** Every bomb ever placed is live or has exploded. */
  predicate Conserved(g: Game) { Blown(g.turns) + |g.bombs| == g.nextBomb }

  ghost predicate LifeInv(p: Params, s: Server) {
    if s.game.started then
      && |s.acts| == |s.game.turns|
      && Conserved(s.game)
      && TimersInv(p, s.game, s.born)
      && LogInv(p, s.game.turns, s.born)
      && CapacityInv(s.born, s.game.turn, Slack(s.control))
      && (s.control.Polling? ==> s.control.next <= CONN_MAX)
    else s.born == [] && s.acts == [] && (s.control.Polling? ==> s.control.next <= CONN_MAX)
  }

  // ---------- begin_turn ----------

  lemma DyingIsDue(p: Params, g: Game, born: seq<nat>, id: u32)
    requires TimersInv(p, g, born)
    ensures id in Dying(g) <==> id < |born| && born[id] + Fuse(p) == g.turn + 1
  {
    if id in g.bombs { assert g.bombs[id].timer == TimerAt(p, g.turn - born[id]); }
  }

  lemma BeginTimers(p: Params, g: Game, born: seq<nat>, r: Game)
    requires TimersInv(p, g, born) && r.turn == g.turn + 1 && r.nextBomb == g.nextBomb
    requires r.bombs == TickAll(g.bombs) - Dying(g)
    ensures TimersInv(p, r, born)
  {
    forall id: u32 { DyingIsDue(p, g, born, id); }
  }

  lemma {:induction false} CountIds(events: seq<Event>, ids: seq<u32>, id: u32)
    requires Ascending(ids) && |events| == |ids|
    requires forall i :: 0 <= i < |ids| ==> events[i].BombExploded? && events[i].id == ids[i]
    ensures Count(events, Detonation(id)) == Flag(id in ids)
    ensures Count(events, Placement(id)) == 0
  {
    if ids != [] {
      var n := |ids| - 1;
      CountIds(events[..n], ids[..n], id);
      assert id in ids <==> id in ids[..n] || id == ids[n];
      assert ids[n] !in ids[..n];
    }
  }

  lemma BlastsCount(p: Params, g: Game, ids: seq<u32>, id: u32)
    requires Ascending(ids) && forall i :: 0 <= i < |ids| ==> ids[i] in g.bombs
    ensures Count(Blasts(p, g, ids), Detonation(id)) == Flag(id in ids)
    ensures Count(Blasts(p, g, ids), Placement(id)) == 0
  {
    hide Explosion, Blasts, Count;
    var b := Blasts(p, g, ids);
    forall i | 0 <= i < |ids| ensures b[i].BombExploded? && b[i].id == ids[i] {
      BlastsAt(p, g, ids, i);
    }
    CountIds(b, ids, id);
  }

  lemma OpeningBombs(p: Params, g: Game, born: seq<nat>)
    requires TimersInv(p, g, born)
    ensures TurnBombs(p, born, g.turn + 1, Opening(p, g))
  {
    forall id: u32
      ensures Count(Opening(p, g), Placement(id)) == Flag(id < |born| && born[id] == g.turn + 1)
      ensures Count(Opening(p, g), Detonation(id)) == Flag(id < |born| && born[id] + Fuse(p) == g.turn + 1)
    {
      BlastsCount(p, g, Sorted32(Dying(g)), id);
      DyingIsDue(p, g, born, id);
    }
  }

  lemma {:induction false} CountAllOf<T>(s: seq<T>, f: T -> bool)
    requires forall i :: 0 <= i < |s| ==> f(s[i])
    ensures Count(s, f) == |s|
  {
    if s != [] { CountAllOf(s[..|s| - 1], f); }
  }

  lemma BeginConserves(p: Params, g: Game, r: Game)
    requires Conserved(g) && g.turn < 0xFFFF && r.turns == g.turns + [TurnInfo(g.turn + 1, Opening(p, g))]
    requires r.bombs == TickAll(g.bombs) - Dying(g) && r.nextBomb == g.nextBomb
    ensures Conserved(r)
  {
    hide Blasts, Blown;
    var b := Opening(p, g);
    assert forall i :: 0 <= i < |b| ==> b[i] in b;
    BlownTurn(g.turns, TurnInfo(g.turn + 1, b));
    Removed(g.bombs, Dying(g));
  }

  lemma BlownFirst(t: TurnInfo)
    requires forall i :: 0 <= i < |t.events| ==> !t.events[i].BombExploded?
    ensures Blown([t]) == 0
  {
    CountNone(t.events, IS_BLAST);
    assert [t][..0] == [];
  }

  lemma Removed(before: map<u32, Bomb>, gone: set<u32>)
    requires gone <= before.Keys
    ensures |TickAll(before) - gone| + |gone| == |before|
  {
    var after := TickAll(before) - gone;
    assert after.Keys == before.Keys - gone;
    assert |after| == |after.Keys| && |before| == |before.Keys|;
  }

  lemma BlownTurn(turns: seq<TurnInfo>, t: TurnInfo)
    requires forall i :: 0 <= i < |t.events| ==> t.events[i].BombExploded?
    ensures Blown(turns + [t]) == Blown(turns) + |t.events|
  {
    assert (turns + [t])[..|turns + [t]| - 1] == turns;
    CountAllOf(t.events, IS_BLAST);
  }

  lemma BlownAppend(turns: seq<TurnInfo>, extra: seq<Event>)
    requires turns != [] && forall i :: 0 <= i < |extra| ==> !extra[i].BombExploded?
    ensures Blown(Append(turns, extra)) == Blown(turns)
  {
    var n := |turns| - 1;
    assert Append(turns, extra)[..n] == turns[..n];
    CountConcat(turns[n].events, extra, IS_BLAST);
    CountNone(extra, IS_BLAST);
  }

  lemma CapacityBegin(p: Params, g: Game, born: seq<nat>, slack: nat)
    requires TimersInv(p, g, born) && CapacityInv(born, g.turn, slack) && slack <= 25
    ensures CapacityInv(born, g.turn + 1, 0)
  {
    forall t: nat | t <= g.turn + 1 ensures Since(born, t) <= 25 * (g.turn + 1 - t) + 0 {
      if t == g.turn + 1 { CountNone(born, (b: nat) => b >= t); }
    }
  }

  lemma BeginTurnLives(p: Params, s: Server, r: Game)
    requires LifeInv(p, s) && s.game.started && s.control.Top? && Shaped(s.game) && Settled(s.game)
    requires s.game.turn < 0xFFFF && r == BeginTurn(p, s.game)
    ensures r.started && LifeInv(p, Server(r, Polling(0), s.base, s.born, s.acts + [[]]))
  {
    var g := s.game;
    BeginTurnLog(p, g, r);
    hide BeginTurn, Opening, Dying, TickAll, TurnBombs, CapacityInv, TimersInv, Conserved;
    BeginConserves(p, g, r);
    BeginTimers(p, g, s.born, r);
    OpeningBombs(p, g, s.born);
    CapacityBegin(p, g, s.born, Slack(s.control));
  }

  // ---------- events that touch no bomb ----------

  predicate NoBombs(events: seq<Event>) {
    forall i :: 0 <= i < |events| ==> !events[i].BombPlaced? && !events[i].BombExploded?
  }

  lemma AppendNoBombs(p: Params, turns: seq<TurnInfo>, born: seq<nat>, extra: seq<Event>)
    requires turns != [] && LogInv(p, turns, born) && NoBombs(extra)
    ensures LogInv(p, Append(turns, extra), born)
  {
    var n := |turns| - 1;
    forall id: u32
      ensures Count(turns[n].events + extra, Placement(id)) == Count(turns[n].events, Placement(id))
      ensures Count(turns[n].events + extra, Detonation(id)) == Count(turns[n].events, Detonation(id))
    {
      CountConcat(turns[n].events, extra, Placement(id));
      CountConcat(turns[n].events, extra, Detonation(id));
      CountNone(extra, Placement(id));
      CountNone(extra, Detonation(id));
    }
    assert TurnBombs(p, born, n, turns[n].events);
    assert TurnBombs(p, born, n, Append(turns, extra)[n].events);
  }

  lemma CloseTurnLives(p: Params, rng: Rng, s: Server, r: Game)
    requires p.Valid() && LifeInv(p, s) && s.game.started && s.control.Polling?
    requires Shaped(s.game) && s.game.toDestroy <= s.game.scores.Keys && r == CloseTurn(p, rng, s.game)
    ensures r.started && LifeInv(p, s.(game := r, control := Closed))
  {
    hide CloseTurn, Moves, LogInv, CapacityInv, Blown;
    CloseTurnLog(p, rng, s.game, r);
    CapacityGrows(s.born, s.game.turn, Slack(s.control), Slack(Closed));
    BlownAppend(s.game.turns, Moves(p, rng, Sorted8(s.game.toDestroy), s.game.draws));
    AppendNoBombs(p, s.game.turns, s.born, Moves(p, rng, Sorted8(s.game.toDestroy), s.game.draws));
  }

  lemma NoBombsTurn(p: Params, events: seq<Event>)
    requires NoBombs(events)
    ensures TurnBombs(p, [], 0, events)
  {
    forall id: u32
      ensures Count(events, Placement(id)) == 0 && Count(events, Detonation(id)) == 0
    {
      CountNone(events, Placement(id));
      CountNone(events, Detonation(id));
    }
  }

  lemma StartLives(p: Params, rng: Rng, g: Game, r: Game)
    requires p.Valid() && Idle(g) && r == StartGameplay(p, rng, g)
    ensures TimersInv(p, r, []) && LogInv(p, r.turns, []) && r.turn == 0 && |r.turns| == 1 && r.started && Conserved(r)
  {
    hide StartGameplay, Moves, Walls, TurnBombs;
    StartGameplayLog(p, rng, g, r);
    NoBombsTurn(p, r.turns[0].events);
    BlownFirst(r.turns[0]);
    assert r.turns == [r.turns[0]] && |g.bombs| == 0;
  }

  // ---------- actions ----------

  lemma CapacityGrows(born: seq<nat>, turn: nat, slack: nat, slack': nat)
    requires CapacityInv(born, turn, slack) && slack <= slack'
    ensures CapacityInv(born, turn, slack')
  {
  }

  lemma CapacityPlace(born: seq<nat>, turn: nat, slack: nat, slack': nat)
    requires CapacityInv(born, turn, slack) && slack < slack'
    ensures CapacityInv(born + [turn], turn, slack')
  {
    forall t: nat | t <= turn ensures Since(born + [turn], t) <= 25 * (turn - t) + slack' {
      CountConcat(born, [turn], (b: nat) => b >= t);
      assert [turn][..0] == [];
      assert Since(born, t) <= 25 * (turn - t) + slack;
    }
  }

  /** Bomb ids never run out: at most 25 bombs are placed per turn. */
  lemma NextBombBound(born: seq<nat>, turn: nat, slack: nat)
    requires CapacityInv(born, turn, slack)
    ensures |born| <= 25 * turn + slack
  {
    assert Since(born, 0) <= 25 * (turn - 0) + slack;
    CountAll(born);
  }

  lemma {:induction false} CountAll(born: seq<nat>)
    ensures Since(born, 0) == |born|
  {
    if born != [] { CountAll(born[..|born| - 1]); }
  }

  lemma PlaceBombLog(p: Params, turns: seq<TurnInfo>, born: seq<nat>, c: Position)
    requires turns != [] && LogInv(p, turns, born) && |born| < 0x1_0000_0000
    requires forall i :: 0 <= i < |born| ==> born[i] < |turns|
    ensures LogInv(p, Append(turns, [BombPlaced(|born|, c)]), born + [|turns| - 1])
  {
    var n, e, born' := |turns| - 1, BombPlaced(|born|, c), born + [|turns| - 1];
    var turns' := Append(turns, [e]);
    assert [e][..0] == [];
    forall t | 0 <= t < |turns'| ensures TurnBombs(p, born', t, turns'[t].events) {
      assert TurnBombs(p, born, t, turns[t].events);
      forall id: u32
        ensures Count(turns'[t].events, Placement(id)) == Flag(id < |born'| && born'[id] == t)
        ensures Count(turns'[t].events, Detonation(id)) == Flag(id < |born'| && born'[id] + Fuse(p) == t)
      {
        CountConcat(turns[n].events, [e], Placement(id));
        CountConcat(turns[n].events, [e], Detonation(id));
      }
    }
  }

  /** The bombs after an effective action: a placed bomb is added under the next id. */
  lemma ActionBombs(p: Params, rng: Rng, g: Game, slot: nat, m: ClientMessage, address: seq<u8>, stale: Position,
      r: Game)
    requires p.Valid() && g.started && Shaped(g) && !m.Join?
    requires Handle(p, rng, g, slot, m, address, stale) == Running(r)
    ensures m.PlaceBomb? && !Ignored(g, slot) ==>
              slot in g.slots && g.slots[slot] in g.positions && r.nextBomb == Add32(g.nextBomb, 1) &&
              r.bombs == Insert(g.bombs, g.nextBomb, Bomb(g.positions[g.slots[slot]], p.bombTimer))
    ensures !m.PlaceBomb? ==> r.nextBomb == g.nextBomb && r.bombs == g.bombs
  {
  }

  lemma PlaceTimers(p: Params, g: Game, born: seq<nat>, c: Position, r: Game)
    requires TimersInv(p, g, born) && g.nextBomb + 1 < 0x1_0000_0000
    requires r.turn == g.turn && r.nextBomb == g.nextBomb + 1
             && r.bombs == Insert(g.bombs, g.nextBomb, Bomb(c, p.bombTimer))
    ensures TimersInv(p, r, born + [g.turn])
    ensures r.bombs == g.bombs[g.nextBomb := Bomb(c, p.bombTimer)] && g.nextBomb !in g.bombs
  {
  }

  lemma PlaceConserves(g: Game, c: Position, r: Game, b: Bomb)
    requires Conserved(g) && g.turns != [] && g.nextBomb !in g.bombs && r.bombs == g.bombs[g.nextBomb := b]
    requires r.nextBomb == g.nextBomb + 1 && r.turns == Append(g.turns, [BombPlaced(g.nextBomb, c)])
    ensures Conserved(r)
  {
    hide Blown, Append;
    BlownAppend(g.turns, [BombPlaced(g.nextBomb, c)]);
    assert r.bombs.Keys == g.bombs.Keys + {g.nextBomb};
    assert |r.bombs| == |r.bombs.Keys| && |g.bombs| == |g.bombs.Keys|;
    assert |r.bombs| == |g.bombs| + 1;
  }

  /** The bomb invariants of one game position. */
  ghost predicate BombsInv(p: Params, g: Game, born: seq<nat>, slack: nat) {
    TimersInv(p, g, born) && LogInv(p, g.turns, born) && CapacityInv(born, g.turn, slack) && Conserved(g)
  }

  lemma PlaceBombLives(p: Params, g: Game, born: seq<nat>, slack: nat, slack': nat, c: Position, r: Game)
    requires BombsInv(p, g, born, slack) && slack < slack' <= 25 && |g.turns| == g.turn + 1
    requires r.turn == g.turn && r.nextBomb == Add32(g.nextBomb, 1)
    requires r.bombs == Insert(g.bombs, g.nextBomb, Bomb(c, p.bombTimer))
    requires r.turns == Append(g.turns, [BombPlaced(g.nextBomb, c)])
    ensures BombsInv(p, r, born + [g.turn], slack')
  {
    hide LogInv, CapacityInv, Append, Conserved;
    NextBombBound(born, g.turn, slack);
    PlaceTimers(p, g, born, c, r);
    PlaceConserves(g, c, r, Bomb(c, p.bombTimer));
    PlaceBombLog(p, g.turns, born, c);
    CapacityPlace(born, g.turn, slack, slack');
  }

  lemma OtherActionLives(p: Params, g: Game, born: seq<nat>, slack: nat, slack': nat, e: Event, r: Game)
    requires BombsInv(p, g, born, slack) && slack <= slack' && g.turns != [] && !e.BombPlaced? && !e.BombExploded?
    requires r.turn == g.turn && r.nextBomb == g.nextBomb && r.bombs == g.bombs && r.turns == Append(g.turns, [e])
    ensures BombsInv(p, r, born, slack')
  {
    hide LogInv, CapacityInv, Append, Blown;
    AppendNoBombs(p, g.turns, born, [e]);
    BlownAppend(g.turns, [e]);
    CapacityGrows(born, g.turn, slack, slack');
  }

  lemma ReceiveLives(p: Params, rng: Rng, s: Server, slot: nat, m: ClientMessage, address: seq<u8>, stale: Position)
    requires Inv(p, s) && LifeInv(p, s) && s.game.started && Enabled(p, s, Receive(slot, m, address, stale))
    ensures Handle(p, rng, s.game, slot, m, address, stale).Running?
    ensures LifeInv(p, Record(s, slot, m, Handle(p, rng, s.game, slot, m, address, stale).game))
  {
    hide Handle, Record, LogInv, TimersInv, CapacityInv, Conserved;
    HandleLog(p, rng, s, slot, m, address, stale);
    var g, slack, r := s.game, Slack(s.control), Handle(p, rng, s.game, slot, m, address, stale).game;
    if Effective(p, g, slot, m, stale) {
      ActionBombs(p, rng, g, slot, m, address, stale, r);
      ActionFrame(p, rng, g, slot, m, address, stale);
      if m.PlaceBomb? {
        PlaceBombLives(p, g, s.born, slack, slot, g.positions[g.slots[slot]], r);
      } else {
        OtherActionLives(p, g, s.born, slack, slot, ActionEvent(g, slot, m, stale), r);
      }
    } else {
      CapacityGrows(s.born, g.turn, slack, slot);
    }
  }

  lemma JoinLives(p: Params, rng: Rng, s: Server, slot: nat, m: ClientMessage, address: seq<u8>, stale: Position)
    requires Inv(p, s) && LifeInv(p, s) && !s.game.started && Enabled(p, s, Receive(slot, m, address, stale))
    requires Handle(p, rng, s.game, slot, m, address, stale).Running?
    ensures LifeInv(p, Record(s, slot, m, Handle(p, rng, s.game, slot, m, address, stale).game))
  {
    hide StartGameplay, LogInv, TimersInv, Conserved;
    var g, r := s.game, Handle(p, rng, s.game, slot, m, address, stale).game;
    if m.Join? {
      var a := Accept(g, slot, m.name, address);
      if |a.players| == p.playersCount {
        AcceptKeeps(p, g, slot, m.name, address);
        StartLives(p, rng, a, r);
        CapacityStart(slot);
      }
    }
  }

  lemma CapacityStart(slack: nat)
    ensures CapacityInv([], 0, slack)
  {
  }

  lemma GreetLives(p: Params, s: Server)
    requires LifeInv(p, s) && s.control == Polling(0)
    ensures LifeInv(p, s.(game := Greet(p, s.game, GREETED_SLOT), control := Polling(1)))
  {
    hide Greeting, LogInv, Blown;
  }

  lemma LifeNext(p: Params, rng: Rng, s: Server, step: Step)
    requires Inv(p, s) && LifeInv(p, s) && Enabled(p, s, step) && Next(p, rng, s, step).Alive?
    ensures LifeInv(p, Next(p, rng, s, step).server)
  {
    hide BeginTurn, CloseTurn, Handle, Record, Greeting, LogInv, CapacityInv, TimersInv, Blown;
    match step
    case StartRound =>
      if s.game.started { BeginTurnLives(p, s, BeginTurn(p, s.game)); }
    case AcceptClient => GreetLives(p, s);
    case Receive(slot, m, address, stale) =>
      if s.game.started {
        ReceiveLives(p, rng, s, slot, m, address, stale);
      } else {
        JoinLives(p, rng, s, slot, m, address, stale);
      }
    case EndRound =>
      if s.game.started { CloseTurnLives(p, rng, s, CloseTurn(p, rng, s.game)); }
    case Continue =>
  }

  // ---------- what it means ----------

  /** A placement found in the log tells the bomb's whole story so far. */
  lemma BombLifetime(p: Params, s: Server, t: nat, id: u32)
    requires Inv(p, s) && LifeInv(p, s) && s.game.started && t <= s.game.turn
    requires Count(s.game.turns[t].events, Placement(id)) > 0
    ensures forall u :: 0 <= u <= s.game.turn ==> Count(s.game.turns[u].events, Placement(id)) == Flag(u == t)
    ensures forall u :: 0 <= u <= s.game.turn ==>
              Count(s.game.turns[u].events, Detonation(id)) == Flag(u == t + Fuse(p))
    ensures id in s.game.bombs <==> s.game.turn < t + Fuse(p)
    ensures id in s.game.bombs ==> s.game.bombs[id].timer == TimerAt(p, s.game.turn - t)
  {
    var g := s.game;
    assert TurnBombs(p, s.born, t, g.turns[t].events);
    forall u | 0 <= u <= g.turn
      ensures Count(g.turns[u].events, Placement(id)) == Flag(u == t)
      ensures Count(g.turns[u].events, Detonation(id)) == Flag(u == t + Fuse(p))
    {
      assert TurnBombs(p, s.born, u, g.turns[u].events);
    }
  }

  /** Every explosion in the log is of a bomb placed exactly one fuse earlier. */
  lemma ExplosionWasPlaced(p: Params, s: Server, u: nat, id: u32)
    requires Inv(p, s) && LifeInv(p, s) && s.game.started && u <= s.game.turn
    requires Count(s.game.turns[u].events, Detonation(id)) > 0
    ensures u >= Fuse(p) && Count(s.game.turns[u - Fuse(p)].events, Placement(id)) == 1
  {
    assert TurnBombs(p, s.born, u, s.game.turns[u].events);
    assert TurnBombs(p, s.born, u - Fuse(p), s.game.turns[u - Fuse(p)].events);
  }

  lemma {:induction false} YoungCard(ids: set<int>, born: seq<nat>, t: nat)
    requires forall id :: id in ids ==> 0 <= id < |born| && born[id] >= t
    ensures |ids| <= Since(born, t)
  {
    if born == [] {
      if ids != {} { var x := Member(ids); assert false; }
    } else {
      var n := |born| - 1;
      var rest := ids - {n};
      YoungCard(rest, born[..n], t);
      assert if n in ids then ids == rest + {n} else ids == rest;
    }
  }

  /** Bomb ids and live bombs stay within what 25 slots can place. */
  lemma BombCapacity(p: Params, s: Server)
    requires Inv(p, s) && LifeInv(p, s) && s.game.started
    ensures s.game.nextBomb <= 25 * (s.game.turn + 1)
    ensures |s.game.bombs| <= 25 * (s.game.turn + 1) && |s.game.bombs| <= 25 * Fuse(p)
  {
    var g := s.game;
    NextBombBound(s.born, g.turn, Slack(s.control));
    var first := if g.turn < Fuse(p) then 0 else g.turn - Fuse(p) + 1;
    assert |g.bombs| == |g.bombs.Keys|;
    YoungCard(g.bombs.Keys, s.born, first);
    assert Since(s.born, first) <= 25 * (g.turn - first) + Slack(s.control);
  }
}
