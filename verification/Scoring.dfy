/** Scores and random draws, read off the turn log: the server counts the turns that hit a player,
    a client counts the explosions, and every draw is accounted for. */
module Scoring {
  import opened Types
  import opened Ordered
  import opened Blast
  import opened GameSpec
  import opened Invariant
  import opened TurnLog

  /** The number of turns in which some explosion lists `q`. */
  ghost function HitTurns(turns: seq<TurnInfo>, q: u8): nat {
    if turns == [] then 0 else
      var n := |turns| - 1;
      HitTurns(turns[..n], q) + Flag(q in Hit(turns[n].events))
  }

  /** The turns already summarised. */
  function Past(s: Server): seq<TurnInfo>
    requires s.game.started ==> s.game.turns != []
  {
    if s.game.started && s.control.Polling? then s.game.turns[..|s.game.turns| - 1] else s.game.turns
  }

  /** Each score counts the past turns that hit the player; the players to destroy are those the
      current turn hit; nobody is hit in turn 0. */
  ghost predicate ScoreInv(s: Server) {
    s.game.started ==>
      && s.game.turns != [] && Hit(s.game.turns[0].events) == {}
      && (forall q :: q in s.game.scores ==> s.game.scores[q] == HitTurns(Past(s), q))
      && (s.control.Polling? ==> s.game.toDestroy == Hit(LastEvents(s.game)))
  }

  lemma HitQuiet(events: seq<Event>, extra: seq<Event>)
    requires forall i :: 0 <= i < |extra| ==> !extra[i].BombExploded?
    ensures Hit(events + extra) == Hit(events)
  {
  }

  lemma {:induction false} HitTurnsAppend(turns: seq<TurnInfo>, t: TurnInfo, q: u8)
    ensures HitTurns(turns + [t], q) == HitTurns(turns, q) + Flag(q in Hit(t.events))
  {
    assert (turns + [t])[..|turns + [t]| - 1] == turns;
  }

  lemma {:induction false} HitTurnsBound(turns: seq<TurnInfo>, q: u8)
    requires turns != [] && Hit(turns[0].events) == {}
    ensures HitTurns(turns, q) < |turns|
  {
    if |turns| == 1 {
      assert turns[..0] == [];
    } else {
      HitTurnsBound(turns[..|turns| - 1], q);
    }
  }

  lemma BeginTurnScores(p: Params, s: Server, r: Game)
    requires ScoreInv(s) && s.game.started && s.control.Top? && Shaped(s.game) && Settled(s.game)
    requires s.game.turn < 0xFFFF && r == BeginTurn(p, s.game)
    ensures r.started && ScoreInv(Server(r, Polling(0), s.base, s.born, s.acts + [[]]))
  {
    hide BeginTurn, Opening, Hit;
    BeginTurnLog(p, s.game, r);
    assert r.turns[..|r.turns| - 1] == s.game.turns;
  }

  lemma ActionScores(s: Server, r: Game, e: Event, slot: nat, m: ClientMessage)
    requires ScoreInv(s) && s.game.started && s.control.Polling? && Shaped(s.game) && !e.BombExploded?
    requires s.acts != [] && slot in s.game.slots
    requires r.started && r.turns == Append(s.game.turns, [e]) && r.toDestroy == s.game.toDestroy
             && r.scores == s.game.scores
    ensures ScoreInv(Acted(s, slot, m, r))
  {
    hide Hit;
    var g, n := s.game, |s.game.turns| - 1;
    HitQuiet(g.turns[n].events, [e]);
    assert r.turns[..n] == g.turns[..n] && r.turns[n].events == g.turns[n].events + [e];
  }

  /** Events that are no explosions, added to the last turn, change no count. */
  lemma HitTurnsQuiet(turns: seq<TurnInfo>, extra: seq<Event>, q: u8)
    requires turns != [] && Hit(turns[0].events) == {}
    requires forall i :: 0 <= i < |extra| ==> !extra[i].BombExploded?
    ensures var n := |turns| - 1;
            && HitTurns(Append(turns, extra), q) == HitTurns(turns[..n], q) + Flag(q in Hit(turns[n].events))
            && HitTurns(turns[..n], q) + Flag(q in Hit(turns[n].events)) <= n
            && Hit(Append(turns, extra)[0].events) == {}
  {
    hide Hit;
    var n := |turns| - 1;
    var t := TurnInfo(turns[n].turn, turns[n].events + extra);
    HitQuiet(turns[n].events, extra);
    assert Append(turns, extra) == turns[..n] + [t] && turns == turns[..n] + [turns[n]];
    HitTurnsAppend(turns[..n], t, q);
    HitTurnsAppend(turns[..n], turns[n], q);
    HitTurnsBound(turns, q);
  }

  lemma CloseTurnScores(p: Params, rng: Rng, s: Server, r: Game)
    requires ScoreInv(s) && s.game.started && s.control.Polling? && Shaped(s.game) && s.game.scores != map[]
    requires p.Valid() && s.game.toDestroy <= s.game.scores.Keys && r == CloseTurn(p, rng, s.game)
    ensures r.started && ScoreInv(s.(game := r, control := Closed))
    ensures forall q :: q in s.game.scores ==> r.scores[q] == s.game.scores[q] + Flag(q in s.game.toDestroy)
  {
    hide CloseTurn, Moves, Hit, HitTurns, Append;
    CloseTurnLog(p, rng, s.game, r);
    var moves := Moves(p, rng, Sorted8(s.game.toDestroy), s.game.draws);
    forall q | q in r.scores
      ensures r.scores[q] == HitTurns(r.turns, q) == s.game.scores[q] + Flag(q in s.game.toDestroy)
      ensures Hit(r.turns[0].events) == {}
    {
      HitTurnsQuiet(s.game.turns, moves, q);
    }
    var q :| q in r.scores;
  }

  /** Nobody has scored before the first turn ends. */
  ghost predicate NoScores(g: Game) {
    !g.started ==> forall q :: q in g.scores ==> g.scores[q] == 0
  }

  // ---------- draws ----------

  function Total(scores: map<u8, u32>, n: nat): nat {
    if n == 0 then 0 else
      Total(scores, n - 1) + if n <= 0x100 && n - 1 in scores then scores[n - 1] else 0
  }

  /** Every cell drawn this game is a player's start, an initial block or a respawn. */
  ghost predicate DrawInv(p: Params, s: Server) {
    s.game.draws == s.base +
      if s.game.started then 2 * (s.game.nextPlayer + p.initialBlocks + Total(s.game.scores, s.game.nextPlayer)) else 0
  }

  lemma {:induction false} TotalGrows(before: map<u8, u32>, after: map<u8, u32>, hit: set<u8>, n: nat)
    requires n <= 0x100 && forall q: u8 :: q in before <==> q in after
    requires forall q: u8 :: q in hit ==> q in before && q < n
    requires forall q: u8 :: q in before && q < n ==> after[q] == before[q] + Flag(q in hit)
    ensures Total(after, n) == Total(before, n) + |hit|
  {
    if n == 0 {
      if hit != {} { var x := Member(hit); assert false; }
    } else {
      TotalGrows(before, after, hit - {n - 1}, n - 1);
    }
  }

  lemma {:induction false} TotalZero(scores: map<u8, u32>, n: nat)
    requires forall q :: q in scores ==> scores[q] == 0
    ensures Total(scores, n) == 0
  {
    if n > 0 { TotalZero(scores, n - 1); }
  }

  lemma CloseTurnDraws(p: Params, rng: Rng, s: Server, r: Game)
    requires DrawInv(p, s) && s.game.started && Shaped(s.game)
    requires forall q: u8 :: q in s.game.scores <==> q < s.game.nextPlayer
    requires p.Valid() && s.game.toDestroy <= s.game.scores.Keys && r == CloseTurn(p, rng, s.game)
    requires forall q :: q in s.game.scores ==> r.scores[q] == s.game.scores[q] + Flag(q in s.game.toDestroy)
    ensures r.started && DrawInv(p, s.(game := r, control := Closed))
  {
    hide CloseTurn, Moves;
    CloseTurnLog(p, rng, s.game, r);
    TotalGrows(s.game.scores, r.scores, s.game.toDestroy, s.game.nextPlayer);
  }

  // ---------- every step ----------

  ghost predicate TallyInv(p: Params, s: Server) {
    ScoreInv(s) && NoScores(s.game) && DrawInv(p, s)
  }

  lemma StartTallies(p: Params, rng: Rng, g: Game, s: Server)
    requires p.Valid() && Idle(g) && s.game == StartGameplay(p, rng, g) && g.draws == s.base
    requires |g.players| == g.nextPlayer && forall q :: q in g.scores ==> g.scores[q] == 0
    requires s.control.Polling?
    ensures TallyInv(p, s)
  {
    var r := s.game;
    hide StartGameplay, Moves, Walls, Hit, Sorted, Ascending, HitTurns, Total;
    StartGameplayLog(p, rng, g, r);
    assert |g.players.Keys| == |g.players|;
    NoTurns();
    TotalZero(g.scores, g.nextPlayer);
    HitQuiet([], r.turns[0].events);
    assert [] + r.turns[0].events == r.turns[0].events && Hit([]) == {} by { NoneHit(); }
    assert r.turns[..0] == [];
  }

  lemma NoTurns()
    ensures forall q :: HitTurns([], q) == 0
  {
  }

  lemma NoneHit()
    ensures Hit([]) == {}
  {
  }

  lemma JoinTallies(p: Params, rng: Rng, s: Server, slot: nat, m: ClientMessage, address: seq<u8>, stale: Position)
    requires Inv(p, s) && TallyInv(p, s) && !s.game.started && Enabled(p, s, Receive(slot, m, address, stale))
    requires Handle(p, rng, s.game, slot, m, address, stale).Running?
    ensures TallyInv(p, Record(s, slot, m, Handle(p, rng, s.game, slot, m, address, stale).game))
  {
    hide StartGameplay, Hit, Sorted8;
    var g, r := s.game, Handle(p, rng, s.game, slot, m, address, stale).game;
    if m.Join? {
      var a := Accept(g, slot, m.name, address);
      AcceptKeeps(p, g, slot, m.name, address);
      assert forall q :: q in a.scores ==> a.scores[q] == 0;
      if |a.players| == p.playersCount {
        StartTallies(p, rng, a, Record(s, slot, m, r));
      }
    }
  }

  lemma ReceiveTallies(p: Params, rng: Rng, s: Server, slot: nat, m: ClientMessage, address: seq<u8>, stale: Position)
    requires Inv(p, s) && TallyInv(p, s) && s.game.started && s.acts != []
    requires Enabled(p, s, Receive(slot, m, address, stale))
    ensures Handle(p, rng, s.game, slot, m, address, stale).Running?
    ensures TallyInv(p, Record(s, slot, m, Handle(p, rng, s.game, slot, m, address, stale).game))
  {
    hide Handle, Record, Hit;
    HandleLog(p, rng, s, slot, m, address, stale);
    var g, r := s.game, Handle(p, rng, s.game, slot, m, address, stale).game;
    ActionFrame(p, rng, g, slot, m, address, stale);
    if Effective(p, g, slot, m, stale) {
      ActionScores(s, r, ActionEvent(g, slot, m, stale), slot, m);
    }
  }

  lemma TallyNext(p: Params, rng: Rng, s: Server, step: Step)
    requires Inv(p, s) && TallyInv(p, s) && (s.game.started ==> s.acts != [])
    requires Enabled(p, s, step) && Next(p, rng, s, step).Alive?
    ensures TallyInv(p, Next(p, rng, s, step).server)
  {
    hide Hit, BeginTurn, CloseTurn, Handle, Record;
    match step
    case StartRound =>
      if s.game.started {
        BeginTurnScores(p, s, BeginTurn(p, s.game));
        BeginTurnLog(p, s.game, BeginTurn(p, s.game));
      }
    case AcceptClient =>
    case Receive(slot, m, address, stale) =>
      if s.game.started {
        ReceiveTallies(p, rng, s, slot, m, address, stale);
      } else {
        JoinTallies(p, rng, s, slot, m, address, stale);
      }
    case EndRound =>
      if s.game.started {
        CloseTurnScores(p, rng, s, CloseTurn(p, rng, s.game));
        CloseTurnDraws(p, rng, s, CloseTurn(p, rng, s.game));
      }
    case Continue =>
  }

  // ---------- the client's tally ----------

  function Lists(q: u8): Event -> bool { (e: Event) => e.BombExploded? && q in e.robots }

  /** What a client counts: one point per explosion that lists the player. */
  function ExplosionTally(turns: seq<TurnInfo>, q: u8): nat {
    if turns == [] then 0 else
      var n := |turns| - 1;
      ExplosionTally(turns[..n], q) + Count(turns[n].events, Lists(q))
  }

  lemma {:induction false} CountLists(events: seq<Event>, q: u8)
    ensures Count(events, Lists(q)) > 0 <==> q in Hit(events)
  {
    if events != [] {
      var n := |events| - 1;
      CountLists(events[..n], q);
      assert events == events[..n] + [events[n]];
      assert q in Hit(events) <==> q in Hit(events[..n]) || (events[n].BombExploded? && q in events[n].robots);
    }
  }

  /** The server's score never exceeds a client's tally, and the two agree exactly when no turn's
      explosions list the player twice. */
  lemma {:induction false} ServerAtMostClient(turns: seq<TurnInfo>, q: u8)
    ensures HitTurns(turns, q) <= ExplosionTally(turns, q)
    ensures HitTurns(turns, q) == ExplosionTally(turns, q) <==>
            forall t :: 0 <= t < |turns| ==> Count(turns[t].events, Lists(q)) <= 1
  {
    if turns != [] {
      var n := |turns| - 1;
      ServerAtMostClient(turns[..n], q);
      CountLists(turns[n].events, q);
      assert forall t :: 0 <= t < n ==> turns[..n][t] == turns[t];
    }
  }

  /** Scores at the end of a turn: the turns that hit the player, never more than turns played. */
  lemma ScoresAreHitTurns(s: Server, q: u8)
    requires ScoreInv(s) && s.game.started && !s.control.Polling? && q in s.game.scores && Shaped(s.game)
    ensures s.game.scores[q] == HitTurns(s.game.turns, q) <= s.game.turn
  {
    HitTurnsBound(s.game.turns, q);
  }
}
