/** Whole runs of the server: every reachable state satisfies every invariant, so the properties
    below hold of all games, for any parameters, random stream and client behaviour. */
module Runs {
  import opened Types
  import opened Blast
  import opened GameSpec
  import opened Invariant
  import opened TurnLog
  import opened Replay
  import opened BombLife
  import opened Grammar
  import opened Scoring
  import opened Protocol

  /** The steps lead from `s` to `s'`, each taken where the loop can take it. */
  ghost predicate Leads(p: Params, rng: Rng, s: Server, steps: seq<Step>, s': Server)
    requires p.Valid()
    decreases |steps|
  {
    if steps == [] then s' == s else
      && Shaped(s.game) && Enabled(p, s, steps[0])
      && Next(p, rng, s, steps[0]).Alive?
      && Leads(p, rng, Next(p, rng, s, steps[0]).server, steps[1..], s')
  }

  /** The steps get as far as one that kills the server. */
  ghost predicate Dies(p: Params, rng: Rng, s: Server, steps: seq<Step>)
    requires p.Valid()
  {
    exists k, mid :: 0 <= k < |steps| && Leads(p, rng, s, steps[..k], mid) && Shaped(mid.game) &&
      Enabled(p, mid, steps[k]) && Next(p, rng, mid, steps[k]).Dead?
  }

  ghost predicate Reachable(p: Params, rng: Rng, s: Server)
    requires p.Valid()
  {
    exists steps :: Leads(p, rng, INITIAL_SERVER, steps, s)
  }

  ghost predicate Everything(p: Params, s: Server) {
    Inv(p, s) && LifeInv(p, s) && Mirrored(s.game) && GrammarInv(p, s) && TallyInv(p, s) && TalkInv(p, s)
  }

  lemma BombsBelow(p: Params, g: Game, born: seq<nat>)
    requires TimersInv(p, g, born)
    ensures forall id :: id in g.bombs ==> id < g.nextBomb
  {
  }

  lemma MirroredNext(p: Params, rng: Rng, s: Server, step: Step)
    requires Inv(p, s) && LifeInv(p, s) && Mirrored(s.game) && Enabled(p, s, step) && Next(p, rng, s, step).Alive?
    ensures Mirrored(Next(p, rng, s, step).server.game)
  {
    hide BeginTurn, CloseTurn, Handle, LogInv, CapacityInv, TimersInv, Greeting;
    match step
    case StartRound =>
      if s.game.started { BeginTurnMirrors(p, s.game, BeginTurn(p, s.game)); }
    case AcceptClient =>
    case Receive(slot, m, address, stale) =>
      if s.game.started { BombsBelow(p, s.game, s.born); }
      HandleMirrors(p, rng, s, slot, m, address, stale);
    case EndRound =>
      if s.game.started { CloseTurnMirrors(p, rng, s.game); }
    case Continue =>
  }

  lemma EverythingNext(p: Params, rng: Rng, s: Server, step: Step)
    requires Everything(p, s) && Enabled(p, s, step) && Next(p, rng, s, step).Alive?
    ensures Everything(p, Next(p, rng, s, step).server)
  {
    hide Inv, TimersInv, LogInv, CapacityInv, Mirrored, PastTurns, CurrentTurn, ScoreInv, NoScores, DrawInv,
         TalkInv, Next, Enabled;
    InvNext(p, rng, s, step);
    LifeNext(p, rng, s, step);
    MirroredNext(p, rng, s, step);
    GrammarNext(p, rng, s, step);
    TallyNext(p, rng, s, step);
    TalkNext(p, rng, s, step);
  }

  lemma EverythingInitially(p: Params)
    requires p.Valid()
    ensures Everything(p, INITIAL_SERVER)
  {
    InitialInv(p);
  }

  lemma {:induction false} EverythingLeads(p: Params, rng: Rng, s: Server, steps: seq<Step>, s': Server)
    requires Everything(p, s) && p.Valid() && Leads(p, rng, s, steps, s')
    ensures Everything(p, s')
    decreases |steps|
  {
    hide Everything, Next, Enabled;
    if steps != [] {
      EverythingNext(p, rng, s, steps[0]);
      EverythingLeads(p, rng, Next(p, rng, s, steps[0]).server, steps[1..], s');
    }
  }

  lemma EverythingHolds(p: Params, rng: Rng, s: Server)
    requires p.Valid() && Reachable(p, rng, s)
    ensures Everything(p, s)
  {
    hide Everything;
    var steps :| Leads(p, rng, INITIAL_SERVER, steps, s);
    EverythingInitially(p);
    EverythingLeads(p, rng, INITIAL_SERVER, steps, s);
  }

  // ---------- what holds in every run ----------

  /** A reachable server can take every step of its loop, and dies exactly when a slot that has
      joined sends an action before the game has started: no other lookup ever fails. */
  lemma DiesOnlyInLobby(p: Params, rng: Rng, s: Server, step: Step)
    requires p.Valid() && Reachable(p, rng, s)
    ensures Shaped(s.game)
    ensures match s.control
            case Top => Enabled(p, s, StartRound)
            case Polling(_) => Enabled(p, s, EndRound)
            case Closed => Enabled(p, s, Continue)
    ensures Enabled(p, s, step) ==>
              (Next(p, rng, s, step).Dead? <==>
               step.Receive? && !s.game.started && step.slot in s.game.slots && !step.message.Join?)
  {
    EverythingHolds(p, rng, s);
    InvEnables(p, s);
    if Enabled(p, s, step) { InvNext(p, rng, s, step); }
  }

  /** At the end of every turn the log, replayed by the protocol's meaning of each event, gives the
      server's robots, blocks and bombs. */
  lemma LogReproducesState(p: Params, rng: Rng, s: Server)
    requires p.Valid() && Reachable(p, rng, s) && s.game.started && !s.control.Polling?
    ensures ReplayTurns(s.game.turns) == World(s.game.positions, s.game.blocks, Cells(s.game.bombs))
  {
    hide LifeInv, GrammarInv, TallyInv, TalkInv, PlayersInv, PlayingInv, Reachable, Cells, ReplayTurns;
    EverythingHolds(p, rng, s);
    assert s.game.positions - {} == s.game.positions;
  }

  /** Every finished turn of every run has the protocol's shape. */
  lemma EveryTurnHasItsShape(p: Params, rng: Rng, s: Server, t: nat)
    requires p.Valid() && Reachable(p, rng, s) && s.game.started && !s.control.Polling? && t <= s.game.turn
    ensures |s.game.turns| == |s.acts| == s.game.turn + 1
    ensures s.game.turns[t].turn == t
    ensures Finished(p, t, ReplayTurns(s.game.turns[..t]), s.game.turns[t].events, s.acts[t])
  {
    hide Finished;
    EverythingHolds(p, rng, s);
  }

  /** A bomb placed in turn t explodes in turn t + Fuse, once, if the game gets there; until then it
      is live and its timer has counted the turns since. */
  lemma BombStory(p: Params, rng: Rng, s: Server, t: nat, id: u32)
    requires p.Valid() && Reachable(p, rng, s) && s.game.started && t <= s.game.turn < |s.game.turns|
    requires Count(s.game.turns[t].events, Placement(id)) > 0
    ensures forall u :: 0 <= u <= s.game.turn ==> Count(s.game.turns[u].events, Placement(id)) == Flag(u == t)
    ensures forall u :: 0 <= u <= s.game.turn ==>
              Count(s.game.turns[u].events, Detonation(id)) == Flag(u == t + Fuse(p))
    ensures id in s.game.bombs <==> s.game.turn < t + Fuse(p)
    ensures id in s.game.bombs ==> s.game.bombs[id].timer == TimerAt(p, s.game.turn - t)
  {
    EverythingHolds(p, rng, s);
    BombLifetime(p, s, t, id);
  }

  /** Conversely, whatever explodes was placed one fuse earlier, and ids and live bombs stay within
      what the slots can place. */
  lemma BombBounds(p: Params, rng: Rng, s: Server, u: nat, id: u32)
    requires p.Valid() && Reachable(p, rng, s) && s.game.started
    ensures s.game.nextBomb <= 25 * (s.game.turn + 1)
    ensures |s.game.bombs| <= 25 * (s.game.turn + 1) && |s.game.bombs| <= 25 * Fuse(p)
    ensures u <= s.game.turn < |s.game.turns| && Count(s.game.turns[u].events, Detonation(id)) > 0 ==>
              u >= Fuse(p) && Count(s.game.turns[u - Fuse(p)].events, Placement(id)) == 1
  {
    EverythingHolds(p, rng, s);
    BombCapacity(p, s);
    if u <= s.game.turn && Count(s.game.turns[u].events, Detonation(id)) > 0 {
      ExplosionWasPlaced(p, s, u, id);
    }
  }

  /** Scores at the end of every turn are the turns that hit the player; a client that counts
      explosions counts at least as many, and the same exactly when no turn hit the player twice. */
  lemma ScoresInEveryRun(p: Params, rng: Rng, s: Server, q: u8)
    requires p.Valid() && Reachable(p, rng, s) && s.game.started && !s.control.Polling? && q in s.game.players
    ensures q in s.game.scores && s.game.scores[q] == HitTurns(s.game.turns, q) <= s.game.turn
    ensures s.game.scores[q] <= ExplosionTally(s.game.turns, q)
    ensures s.game.scores[q] == ExplosionTally(s.game.turns, q) <==>
              forall t :: 0 <= t < |s.game.turns| ==> Count(s.game.turns[t].events, Lists(q)) <= 1
  {
    EverythingHolds(p, rng, s);
    ScoresAreHitTurns(s, q);
    ServerAtMostClient(s.game.turns, q);
  }

  /** The draws of the current game are two per player, per initial block and per point scored. */
  lemma DrawsAreConserved(p: Params, rng: Rng, s: Server)
    requires p.Valid() && Reachable(p, rng, s) && s.game.started
    ensures s.game.draws == s.base + 2 * (p.playersCount + p.initialBlocks + Total(s.game.scores, p.playersCount))
  {
    EverythingHolds(p, rng, s);
  }

  /** All the server broadcasts in any run follows the protocol: games of turns 0..gameLength, each
      ended by the final scores. In the lobby the checker is back where it started. */
  lemma BroadcastsFollowProtocol(p: Params, rng: Rng, s: Server)
    requires p.Valid() && Reachable(p, rng, s)
    ensures s.game.started ==> s.game.turns != [] && s.game.turn <= p.gameLength
    ensures HearAll(p, Broadcasts(s.game.out)) == Some(Expected(s))
    ensures s.game.started && !s.control.Polling? ==> |Expected(s).turns| == s.game.turn + 1
  {
    hide HearAll, Broadcasts;
    EverythingHolds(p, rng, s);
  }

  /** With nobody joined every field is that of a fresh server, the random stream's position and the
      sent messages apart. */
  lemma EmptyLobbyIsFresh(p: Params, rng: Rng, s: Server)
    requires p.Valid() && Reachable(p, rng, s) && !s.game.started && s.game.nextPlayer == 0
    ensures s == Server(INITIAL_GAME.(draws := s.game.draws, out := s.game.out), s.control, s.game.draws, [], [])
  {
    EverythingHolds(p, rng, s);
    assert s.game.players == map[] && s.game.scores == map[];
    assert s.game.slots == map[] by {
      assert forall i :: i !in s.game.slots;
    }
  }

  // ---------- observers ----------

  lemma {:induction false} OutGrows(p: Params, rng: Rng, s: Server, steps: seq<Step>, s': Server)
    requires Everything(p, s) && p.Valid() && Leads(p, rng, s, steps, s')
    ensures s.game.out <= s'.game.out
    decreases |steps|
  {
    hide Everything, Enabled, BeginTurn, CloseTurn, Handle, Greeting;
    if steps != [] {
      var s1 := Next(p, rng, s, steps[0]).server;
      EverythingNext(p, rng, s, steps[0]);
      OutGrowsOnce(p, rng, s, steps[0]);
      OutGrows(p, rng, s1, steps[1..], s');
    }
  }

  lemma OutGrowsOnce(p: Params, rng: Rng, s: Server, step: Step)
    requires Everything(p, s) && Enabled(p, s, step) && Next(p, rng, s, step).Alive?
    ensures s.game.out <= Next(p, rng, s, step).server.game.out
  {
    hide LifeInv, Mirrored, TalkInv, TallyInv, BeginTurn, CloseTurn, StartGameplay, Greeting, Moves, Walls;
    match step
    case StartRound =>
      if s.game.started { BeginTurnLog(p, s.game, BeginTurn(p, s.game)); }
    case AcceptClient =>
    case Receive(slot, m, address, stale) =>
      if s.game.started {
        ActionFrame(p, rng, s.game, slot, m, address, stale);
      } else if m.Join? {
        var a := Accept(s.game, slot, m.name, address);
        AcceptKeeps(p, s.game, slot, m.name, address);
        if |a.players| == p.playersCount { StartGameplayLog(p, rng, a, StartGameplay(p, rng, a)); }
      }
    case EndRound =>
      if s.game.started { CloseTurnLog(p, rng, s.game, CloseTurn(p, rng, s.game)); }
    case Continue =>
  }

  /** An observer in step stays in step through any further run. */
  lemma {:induction false} StaysInStep(p: Params, rng: Rng, s: Server, steps: seq<Step>, s': Server, w: World,
      slot: nat)
    requires Everything(p, s) && p.Valid() && Leads(p, rng, s, steps, s') && InStep(s, w)
    ensures InStep(s', WatchAll(w, News(s, s', slot)))
    decreases |steps|
  {
    hide Everything, InStep, Enabled, BeginTurn, CloseTurn, Handle, Greeting, Next, WatchAll;
    if steps == [] {
      NoNews(s, s', w, slot);
    } else {
      var s1 := Next(p, rng, s, steps[0]).server;
      EverythingNext(p, rng, s, steps[0]);
      StepInStep(p, rng, s, steps[0], w, slot);
      OutGrowsOnce(p, rng, s, steps[0]);
      OutGrows(p, rng, s1, steps[1..], s');
      StaysInStep(p, rng, s1, steps[1..], s', WatchAll(w, News(s, s1, slot)), slot);
      NewsConcat(s, s1, s', slot);
      WatchConcat(w, News(s, s1, slot), News(s1, s', slot));
    }
  }

  lemma StepInStep(p: Params, rng: Rng, s: Server, step: Step, w: World, slot: nat)
    requires Everything(p, s) && Enabled(p, s, step) && Next(p, rng, s, step).Alive? && InStep(s, w)
    ensures InStep(Next(p, rng, s, step).server, WatchAll(w, News(s, Next(p, rng, s, step).server, slot)))
  {
    InStepNext(p, rng, s, step, w, slot);
  }

  lemma NewsConcat(a: Server, b: Server, c: Server, slot: nat)
    requires a.game.out <= b.game.out <= c.game.out
    ensures News(a, c, slot) == News(a, b, slot) + News(b, c, slot)
  {
    hide Stream;
    var x, y := b.game.out[|a.game.out|..], c.game.out[|b.game.out|..];
    assert c.game.out == a.game.out + (x + y);
    assert c.game.out[|a.game.out|..] == x + y;
    StreamConcat(x, y, slot);
  }

  /** Applying what a slot is sent, from the start of the server or from any lobby on, gives the
      server's board after every turn. */
  lemma ObserversMirror(p: Params, rng: Rng, s: Server, steps: seq<Step>, s': Server, w: World, slot: nat)
    requires p.Valid() && Reachable(p, rng, s) && Leads(p, rng, s, steps, s') && !s.game.started
    requires s'.game.started && !s'.control.Polling?
    ensures WatchAll(w, News(s, s', slot)) == World(s'.game.positions, s'.game.blocks, Cells(s'.game.bombs))
  {
    hide WatchAll, News;
    EverythingHolds(p, rng, s);
    EverythingLeads(p, rng, s, steps, s');
    StaysInStep(p, rng, s, steps, s', w, slot);
    InStepIsExact(s', WatchAll(w, News(s, s', slot)));
  }

  /** A client greeted in the middle of a game, with past turns and the explosions of the current
      one, has the server's board after the next full turn and after every later one. */
  lemma LateJoinerMirrors(p: Params, rng: Rng, s: Server, steps: seq<Step>, s': Server, w: World)
    requires p.Valid() && Reachable(p, rng, s) && s.game.started && Enabled(p, s, AcceptClient)
    requires Leads(p, rng, s, [AcceptClient] + steps, s') && s'.game.started && !s'.control.Polling?
    ensures WatchAll(w, News(s, s', GREETED_SLOT)) ==
            World(s'.game.positions, s'.game.blocks, Cells(s'.game.bombs))
  {
    hide WatchAll, News, Greeting, InStep, Mirrored, LifeInv, TallyInv, TalkInv, PastTurns, CurrentTurn,
         PlayersInv, PlayingInv;
    EverythingHolds(p, rng, s);
    var all := [AcceptClient] + steps;
    assert all[0] == AcceptClient && all[1..] == steps;
    var s1 := Next(p, rng, s, AcceptClient).server;
    EverythingNext(p, rng, s, AcceptClient);
    GreetingBringsIntoStep(p, s, s1, w);
    StaysInStep(p, rng, s1, steps, s', WatchAll(w, News(s, s1, GREETED_SLOT)), GREETED_SLOT);
    OutGrowsOnce(p, rng, s, AcceptClient);
    OutGrows(p, rng, s1, steps, s');
    NewsConcat(s, s1, s', GREETED_SLOT);
    WatchConcat(w, News(s, s1, GREETED_SLOT), News(s1, s', GREETED_SLOT));
    EverythingLeads(p, rng, s1, steps, s');
    InStepIsExact(s', WatchAll(w, News(s, s', GREETED_SLOT)));
  }
}
