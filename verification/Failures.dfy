/** The failures the other results speak of do occur: each in rounds that a new server, with all its
    slots closed, goes through. And when an ungreeted client gets through its first game, in terms of
    that game alone. */
module Failures {
  import opened Types
  import opened Blast
  import opened GameSpec
  import opened Invariant
  import opened TurnLog
  import opened Replay
  import opened BombLife
  import opened Grammar
  import opened Scoring
  import opened Protocol
  import opened Runs
  import opened Replica
  import opened TcpHandling
  import opened Rounds
  import opened Mirror
  import opened Scripts

  // ---------- the crash in the lobby ----------

  lemma FreshIsReachable(p: Params, rng: Rng)
    requires p.Valid()
    ensures Reachable(p, rng, INITIAL_SERVER)
  {
    LeadsNowhere(p, rng, INITIAL_SERVER);
  }

  const ONE_OPEN := CLOSED[1 := true]
  const TWO_OPEN := ONE_OPEN[2 := true]

  lemma SlotsFillUp()
    ensures Admits(CLOSED) && FirstFree(CLOSED) == 1
    ensures Admits(ONE_OPEN) && FirstFree(ONE_OPEN) == 2
    ensures Admits(TWO_OPEN)
  {
    FreeFromIsLowest(CLOSED, FIRST_SLOT);
    FreeFromIsLowest(ONE_OPEN, FIRST_SLOT);
    FreeFromIsLowest(TWO_OPEN, FIRST_SLOT);
    assert !CLOSED[1] && !ONE_OPEN[2] && !TWO_OPEN[3];
  }

  /** The lobby of a new server once its first client has connected, been greeted and joined. */
  function FirstJoined(p: Params): Game {
    Accept(Greet(p, INITIAL_GAME, GREETED_SLOT), 1, [], [])
  }

  lemma OneJoins(p: Params, rng: Rng) returns (r: Run)
    requires p.Valid() && p.playersCount >= 2
    ensures Real(p, rng, r) && r.start == INITIAL_SERVER && r.table == CLOSED && r.open == ONE_OPEN
    ensures r.now.game == FirstJoined(p) && r.now.base == 0
  {
    hide Real, Leads, Reachable, RoundSteps, Admits, FirstFree, OpenAfter, Greeting;
    FreshIsReachable(p, rng);
    NoRounds(p, rng, INITIAL_SERVER, CLOSED);
    SlotsFillUp();
    var empty := Run(INITIAL_SERVER, CLOSED, [], INITIAL_SERVER, CLOSED);
    var _, greeted := Knocks(p, rng, empty);
    var connected := Ends(p, rng, empty, Knock(), greeted);
    var a := Speaks(p, rng, connected, 1, Join([]));
    assert |FirstJoined(p).players| == 1;
    var joined := Handled(p, rng, connected, 1, Join([]), a, FirstJoined(p));
    r := Ends(p, rng, connected, Says(1, Join([])), joined);
  }

  /** It places a bomb while the lobby waits for another player. */
  lemma ThenItCrashes(p: Params, rng: Rng, r: Run) returns (polls: seq<Poll>)
    requires p.Valid() && Real(p, rng, r) && r.start == INITIAL_SERVER && r.table == CLOSED && r.open == ONE_OPEN
    requires r.now.game == FirstJoined(p)
    ensures AllValid(polls) && RoundsMeetLobbyAction(p, rng, INITIAL_SERVER, polls, CLOSED)
  {
    hide Leads, Reachable, RoundSteps, OpenAfter, OpenAfterAll, Greeting;
    var poll, k := Says(1, PlaceBomb), |r.polls|;
    var a := Speaks(p, rng, r, 1, PlaceBomb);
    polls := r.polls + [poll];
    assert polls[..k] == r.polls;
    var steps := RoundSteps(poll, r.open);
    assert steps[..1] == [StartRound];
    assert Enabled(p, a, steps[1]) && LobbyAction(a, steps[1]);
    assert MeetsLobbyAction(p, rng, r.now, RoundSteps(polls[k], OpenAfterAll(polls[..k], CLOSED)));
  }

  /** From its start a server can be crashed by some rounds exactly when the game needs two players. */
  lemma LobbyCrashIsReal(p: Params, rng: Rng)
    requires p.Valid()
    ensures (exists polls :: AllValid(polls) && RoundsMeetLobbyAction(p, rng, INITIAL_SERVER, polls, CLOSED)) <==>
            p.playersCount >= 2
  {
    if p.playersCount >= 2 {
      var r := OneJoins(p, rng);
      var polls := ThenItCrashes(p, rng, r);
    }
    forall polls | AllValid(polls) && RoundsMeetLobbyAction(p, rng, INITIAL_SERVER, polls, CLOSED)
      ensures p.playersCount >= 2
    {
      NeedsTwo(p, rng, polls);
    }
  }

  lemma NeedsTwo(p: Params, rng: Rng, polls: seq<Poll>)
    requires p.Valid() && AllValid(polls) && RoundsMeetLobbyAction(p, rng, INITIAL_SERVER, polls, CLOSED)
    ensures p.playersCount >= 2
  {
    hide Leads, Reachable, RoundSteps, OpenAfterAll, RoundsLead;
    var k, s :| 0 <= k < |polls| && RoundsLead(p, rng, INITIAL_SERVER, polls[..k], CLOSED, s) &&
                MeetsLobbyAction(p, rng, s, RoundSteps(polls[k], OpenAfterAll(polls[..k], CLOSED)));
    FreshIsReachable(p, rng);
    RoundsStayReachable(p, rng, INITIAL_SERVER, polls[..k], CLOSED, s);
    var steps := RoundSteps(polls[k], OpenAfterAll(polls[..k], CLOSED));
    var j, mid :| 0 <= j < |steps| && Leads(p, rng, s, steps[..j], mid) && Enabled(p, mid, steps[j]) &&
                  LobbyAction(mid, steps[j]);
    StaysReachable(p, rng, s, steps[..j], mid);
    EverythingHolds(p, rng, mid);
  }

  // ---------- a client that is never greeted ----------

  /** No finished turn of the current game hit a player of `missing`. */
  ghost predicate SparedSoFar(s: Server, missing: set<u8>) {
    s.game.started ==>
      s.game.turns != [] && forall t :: 0 <= t < |Past(s)| ==> Hit(Past(s)[t].events) !! missing
  }

  lemma SamePast(s: Server, s': Server, missing: set<u8>)
    requires s.game.started == s'.game.started
    requires s.game.started ==> s.game.turns != [] && s'.game.turns != [] && Past(s') == Past(s)
    ensures SparedSoFar(s', missing) <==> SparedSoFar(s, missing)
  {
  }

  lemma NoPast(s: Server, s': Server, missing: set<u8>)
    requires !s.game.started && s'.game.started && s'.game.turns != [] && Past(s') == []
    ensures SparedSoFar(s', missing) && SparedSoFar(s, missing)
  {
  }

  /** A step that does not end the game adds to the finished turns exactly the turn it closes. */
  lemma PastNext(p: Params, rng: Rng, s: Server, step: Step, s': Server, missing: set<u8>)
    requires Everything(p, s) && Enabled(p, s, step) && Next(p, rng, s, step) == Alive(s') && Everything(p, s')
    requires s.game.started ==> s'.game.started
    ensures SparedSoFar(s', missing) <==>
            SparedSoFar(s, missing) && (step.EndRound? && s.game.started ==> s.game.toDestroy !! missing)
  {
    hide BeginTurn, CloseTurn, Handle, Record, Greeting, TimersInv, LogInv, CapacityInv, Conserved, PastTurns,
         UnderWay, PlayersInv, DrawInv, Hit, TalkInv, Mirrored, StartGameplay, SparedSoFar;
    match step
    case StartRound =>
      if s.game.started {
        BeginTurnLog(p, s.game, s'.game);
        assert s'.game.turns[..|s.game.turns|] == s.game.turns;
      }
      SamePast(s, s', missing);
    case AcceptClient => SamePast(s, s', missing);
    case Receive(from, m, address, stale) =>
      if s.game.started {
        ActionPast(p, rng, s, from, m, address, stale);
        SamePast(s, s', missing);
      } else if s'.game.started {
        RecordKeepsGame(s, from, m, Handle(p, rng, s.game, from, m, address, stale).game);
        JoinPast(p, rng, s, from, m, address, stale);
        NoPast(s, s', missing);
      } else {
        SamePast(s, s', missing);
      }
    case EndRound =>
      if s.game.started {
        ClosedLog(p, rng, s.game, s'.game);
        OneMorePast(s, s', s'.game.turns[s.game.turn], missing);
      } else {
        SamePast(s, s', missing);
      }
    case Continue => SamePast(s, s', missing);
  }

  lemma OneMorePast(s: Server, s': Server, t: TurnInfo, missing: set<u8>)
    requires s.game.started && s'.game.started && s.game.turns != [] && s'.game.turns != []
    requires Past(s') == Past(s) + [t]
    ensures SparedSoFar(s', missing) <==> SparedSoFar(s, missing) && Hit(t.events) !! missing
  {
    hide Hit;
    var n := |Past(s)|;
    assert Past(s')[n] == t && forall i :: 0 <= i < n ==> Past(s')[i] == Past(s)[i];
  }

  lemma RecordKeepsGame(s: Server, slot: nat, m: ClientMessage, g: Game)
    ensures Record(s, slot, m, g).game == g
  {
  }

  lemma ActionPast(p: Params, rng: Rng, s: Server, from: nat, m: ClientMessage, address: seq<u8>, stale: Position)
    requires Inv(p, s) && s.game.started && s.acts != [] && Enabled(p, s, Receive(from, m, address, stale))
    ensures Handle(p, rng, s.game, from, m, address, stale).Running?
    ensures var s' := Record(s, from, m, Handle(p, rng, s.game, from, m, address, stale).game);
            s'.game.started && s'.game.turns != [] && Past(s') == Past(s)
  {
    hide Handle, Record, Append;
    HandleLog(p, rng, s, from, m, address, stale);
    ActionFrame(p, rng, s.game, from, m, address, stale);
    if Effective(p, s.game, from, m, stale) {
      PastOfAppend(s.game.turns, [ActionEvent(s.game, from, m, stale)]);
      LastOfAppend(s.game.turns, [ActionEvent(s.game, from, m, stale)]);
    }
  }

  lemma JoinPast(p: Params, rng: Rng, s: Server, from: nat, m: ClientMessage, address: seq<u8>, stale: Position)
    requires Inv(p, s) && !s.game.started && Enabled(p, s, Receive(from, m, address, stale))
    requires Handle(p, rng, s.game, from, m, address, stale).Running?
    requires Handle(p, rng, s.game, from, m, address, stale).game.started
    ensures var s' := Record(s, from, m, Handle(p, rng, s.game, from, m, address, stale).game);
            s'.game.turns != [] && Past(s') == []
  {
    hide StartGameplay, Moves, Walls;
    var a := Accept(s.game, from, m.name, address);
    AcceptKeeps(p, s.game, from, m.name, address);
    StartGameplayLog(p, rng, a, StartGameplay(p, rng, a));
  }

  /** The draws before the current game only grow, and strictly when a game ends. */
  lemma BaseGrows(p: Params, rng: Rng, s: Server, step: Step, s': Server)
    requires Everything(p, s) && Enabled(p, s, step) && Next(p, rng, s, step) == Alive(s')
    ensures s'.base >= s.base && (s.game.started && !s'.game.started ==> s'.base > s.base)
  {
    hide BeginTurn, CloseTurn, Handle, Greeting, TimersInv, LogInv, CapacityInv, Conserved, PastTurns, CurrentTurn,
         ScoreInv, NoScores, TalkInv, Mirrored, AllOnBoard, Total;
    match step
    case Receive(from, m, address, stale) =>
      if s.game.started { ActionFrame(p, rng, s.game, from, m, address, stale); }
    case _ =>
  }

  lemma {:induction false} BaseLeads(p: Params, rng: Rng, s: Server, steps: seq<Step>, s': Server)
    requires p.Valid() && Everything(p, s) && Leads(p, rng, s, steps, s')
    ensures s'.base >= s.base
    decreases |steps|
  {
    hide Everything, Enabled, Next;
    if steps != [] {
      var s1 := Next(p, rng, s, steps[0]).server;
      EverythingNext(p, rng, s, steps[0]);
      BaseGrows(p, rng, s, steps[0], s1);
      BaseLeads(p, rng, s1, steps[1..], s');
    }
  }

  lemma {:induction false} UngreetedSpares(p: Params, rng: Rng, s: Server, steps: seq<Step>, s': Server,
      missing: set<u8>, slot: nat)
    requires p.Valid() && Everything(p, s) && Leads(p, rng, s, steps, s')
    requires slot != GREETED_SLOT && s'.base == s.base
    ensures SparedSoFar(s', missing) <==> SparedSoFar(s, missing) && RunSpares(p, rng, s, steps, s', missing, slot)
    decreases |steps|
  {
    hide Everything, Enabled, Next, SparedSoFar;
    if steps != [] {
      var s1 := Next(p, rng, s, steps[0]).server;
      EverythingNext(p, rng, s, steps[0]);
      BaseGrows(p, rng, s, steps[0], s1);
      BaseLeads(p, rng, s1, steps[1..], s');
      PastNext(p, rng, s, steps[0], s1, missing);
      UngreetedSpares(p, rng, s1, steps[1..], s', missing, slot);
    }
  }

  /** A client in any slot but the first, connected in a lobby, survives the game that follows (while the
      draws before the current game are the same, it is still that game) if and only if no finished
      turn of it hits a player who had joined and whom the client does not know. */
  lemma UngreetedSurvivesExactly(p: Params, rng: Rng, s: Server, steps: seq<Step>, s': Server, c: Client, slot: nat)
    requires p.Valid() && Reachable(p, rng, s) && !s.game.started && Leads(p, rng, s, steps, s')
    requires slot != GREETED_SLOT && s'.base == s.base && s'.game.started
    ensures s'.game.turns != []
    ensures HearsAll(c, News(s, s', slot)).Some? <==>
            forall t :: 0 <= t < |Past(s')| ==>
              Hit(Past(s')[t].events) !! s.game.players.Keys - c.lobby.players.Keys
  {
    hide Leads, Reachable, RunSpares, HearsAll, News, Hit, Everything;
    EverythingHolds(p, rng, s);
    EverythingLeads(p, rng, s, steps, s');
    ClientSurvivesExactly(p, rng, s, steps, s', c, slot);
    UngreetedSpares(p, rng, s, steps, s', Missing(s, c), slot);
    HasTurns(p, s');
  }

  lemma HasTurns(p: Params, s: Server)
    requires Everything(p, s)
    ensures s.game.started ==> s.game.turns != []
  {
  }

  // ---------- a game in which robots are hit ----------

  /** Two players on a board of one cell, with bombs that explode in the next turn. */
  const TINY := Params([], 2, 1, 1, 3, 0, 1, 0)

  lemma Corner(c: Position)
    requires OnBoard(TINY, c)
    ensures c == Position(0, 0)
  {
  }

  /** The second client joins, turn 0 is played and the game goes on. */
  lemma TwoJoin(rng: Rng, r: Run) returns (r': Run)
    requires Real(TINY, rng, r) && r.open == TWO_OPEN
    requires r.now.game == Greet(TINY, FirstJoined(TINY), GREETED_SLOT)
    ensures Real(TINY, rng, r') && r'.start == r.start && r'.table == r.table && r'.open == TWO_OPEN
    ensures r'.now.game.started && r'.now.game.turn == 0 && r'.now.base == r.now.base
    ensures r'.now.game.slots == map[1 := 0, 2 := 1] && r'.now.game.bombs == map[]
  {
    hide Real, Leads, Reachable, RoundSteps, OpenAfter, Greeting, StartGameplay, CloseTurn, Moves, Walls;
    var join := Join([]);
    var a := Speaks(TINY, rng, r, 2, join);
    var g := Accept(a.game, 2, [], []);
    assert |g.players| == 2;
    assert Idle(g);
    StartGameplayLog(TINY, rng, g, StartGameplay(TINY, rng, g));
    var mid := Handled(TINY, rng, r, 2, join, a, StartGameplay(TINY, rng, g));
    r' := Ends(TINY, rng, r, Says(2, join), mid);
    CloseTurnLog(TINY, rng, mid.game, CloseTurn(TINY, rng, mid.game));
  }

  /** A bomb due on the one-cell board hits everybody. */
  lemma EverybodyHit(g: Game, r: Game)
    requires g.started && PlayingInv(TINY, g) && Settled(g) && g.turn < 0xFFFF && r == BeginTurn(TINY, g)
    ensures r.started && r.slots == g.slots && r.players == g.players && r.turn == g.turn + 1
    ensures r.bombs == TickAll(g.bombs) - Dying(g)
    ensures Dying(g) == {} ==> r.toDestroy == {}
    ensures Dying(g) != {} ==> r.toDestroy == g.players.Keys
  {
    hide BeginTurn, Dying, TickAll, InBlast, Opening;
    BeginTurnLog(TINY, g, r);
    BeginTurnIsExact(TINY, g, r);
    DyingLive(g);
    forall q, id | q in g.positions && id in Dying(g)
      ensures InBlast(TINY, g.blocks, g.bombs[id].position, g.positions[q])
    {
      Corner(g.positions[q]);
      Corner(g.bombs[id].position);
      OwnCell(g.blocks, Position(0, 0));
    }
  }

  lemma OwnCell(blocks: set<Position>, c: Position)
    ensures InBlast(TINY, blocks, c, c)
  {
  }

  lemma BombGoesDown(g: Game) returns (r: Game)
    requires Shaped(g) && g.started && g.slots == map[1 := 0, 2 := 1] && 0 in g.positions
    requires g.bombs == map[] && g.toDestroy == {}
    ensures HandlePlaceBomb(TINY, g, 1) == Running(r)
    ensures r.started && r.turn == g.turn && r.players == g.players && Expired(TickAll(r.bombs)) != {}
  {
    r := HandlePlaceBomb(TINY, g, 1).game;
    assert r.bombs == map[g.nextBomb := Bomb(g.positions[0], 1)];
    assert g.nextBomb in Expired(TickAll(r.bombs));
  }

  /** In turn 1 the first client places a bomb that is due in turn 2. */
  lemma PlaceOne(rng: Rng, r: Run) returns (r': Run)
    requires Real(TINY, rng, r) && r.open == TWO_OPEN && r.now.game.started && r.now.game.turn == 0
    requires r.now.game.slots == map[1 := 0, 2 := 1] && r.now.game.bombs == map[]
    ensures Real(TINY, rng, r') && r'.start == r.start && r'.table == r.table && r'.open == TWO_OPEN
    ensures r'.now.game.started && r'.now.game.turn == 1 && r'.now.base == r.now.base
    ensures 0 in r'.now.game.players && Expired(TickAll(r'.now.game.bombs)) != {}
  {
    hide RoundsLead, OpenAfterAll, Leads, Reachable, RoundSteps, OpenAfter, BeginTurn, CloseTurn, TickAll, Expired,
         HandlePlaceBomb, LifeInv, TallyInv, TalkInv, Mirrored, GrammarInv;
    NothingTicks();
    EverythingHolds(TINY, rng, r.now);
    var a := Speaks(TINY, rng, r, 1, PlaceBomb);
    EverybodyHit(r.now.game, a.game);
    EverythingHolds(TINY, rng, a);
    var g := BombGoesDown(a.game);
    var mid := Handled(TINY, rng, r, 1, PlaceBomb, a, g);
    r' := Ends(TINY, rng, r, Says(1, PlaceBomb), mid);
    CloseTurnLog(TINY, rng, mid.game, CloseTurn(TINY, rng, mid.game));
  }

  lemma NothingTicks()
    ensures TickAll(map[]) == map[] && Expired(map[]) == {} && TickAll(map[]) - {} == map[]
  {
  }

  lemma SomebodyHit(s: Server)
    requires GrammarInv(TINY, s) && s.game.started && s.control.Polling? && s.game.toDestroy != {}
    ensures !NobodyHit(s.game.turns)
  {
    assert Hit(s.game.turns[s.game.turn].events) != {};
  }

  /** The first client connects and joins, and then the second connects. */
  lemma TwoConnect(rng: Rng) returns (r: Run)
    ensures Real(TINY, rng, r) && r.start == INITIAL_SERVER && r.table == CLOSED && r.open == TWO_OPEN
    ensures r.now.game == Greet(TINY, FirstJoined(TINY), GREETED_SLOT) && r.now.base == 0
  {
    hide Real, Leads, Reachable, RoundSteps, Admits, FirstFree, OpenAfter, Greeting;
    SlotsFillUp();
    var one := OneJoins(TINY, rng);
    var _, mid := Knocks(TINY, rng, one);
    r := Ends(TINY, rng, one, Knock(), mid);
  }

  /** A run whose steps begin with a greeting of the client's slot in mid-game, after robots were hit. */
  lemma NotSpared(p: Params, rng: Rng, s: Server, a: Server, steps: seq<Step>, s': Server, missing: set<u8>)
    requires p.Valid() && Leads(p, rng, s, [StartRound, AcceptClient] + steps, s') && Leads(p, rng, s, [StartRound], a)
    requires a.game.started && !NobodyHit(a.game.turns)
    ensures !RunSpares(p, rng, s, [StartRound, AcceptClient] + steps, s', missing, GREETED_SLOT)
  {
    hide Next, Enabled, NobodyHit, MissingAfter;
    var all := [StartRound, AcceptClient] + steps;
    assert all[0] == StartRound && all[1..][0] == AcceptClient && [StartRound][1..] == [];
    assert a == Next(p, rng, s, StartRound).server;
  }

  /** A third client's coming in mid-game kills whatever client is in slot 1: it is greeted instead, at
      a time when robots have been hit. */
  lemma GreetingCanKill(rng: Rng) returns (polls: seq<Poll>, s: Server, s': Server)
    ensures AllValid(polls) && RoundsLead(TINY, rng, INITIAL_SERVER, polls, CLOSED, s) && s.game.started
    ensures OpenAfterAll(polls, CLOSED)[GREETED_SLOT] && Knock().Valid()
    ensures RoundLeads(TINY, rng, s, Knock(), OpenAfterAll(polls, CLOSED), s')
    ensures forall c :: HearsAll(c, News(s, s', GREETED_SLOT)).None?
  {
    hide Leads, Reachable, RoundSteps, OpenAfter, OpenAfterAll, Admits, HearsAll, News, NobodyHit, Inv, LifeInv,
         TallyInv, TalkInv, Mirrored, GrammarInv, Greet, BeginTurn, Expired, TickAll;
    SlotsFillUp();
    var two := TwoConnect(rng);
    var zero := TwoJoin(rng, two);
    var r := PlaceOne(rng, zero);
    polls, s := r.polls, r.now;
    var a, mid := Knocks(TINY, rng, r);
    var r' := Ends(TINY, rng, r, Knock(), mid);
    s' := r'.now;
    SomebodyIsHit(rng, s, a);
    LeadsConcat(TINY, rng, s, [StartRound, AcceptClient], mid, Ending(mid.game), s');
    forall c ensures HearsAll(c, News(s, s', GREETED_SLOT)).None? {
      ClientSurvivesExactly(TINY, rng, s, [StartRound, AcceptClient] + Ending(mid.game), s', c, GREETED_SLOT);
      NotSpared(TINY, rng, s, a, Ending(mid.game), s', Missing(s, c));
    }
  }

  lemma SomebodyIsHit(rng: Rng, s: Server, a: Server)
    requires Reachable(TINY, rng, s) && Reachable(TINY, rng, a) && s.control.Top? && a.control.Polling?
    requires s.game.started && s.game.turn == 1 && Shaped(s.game) && a.game == BeginTurn(TINY, s.game)
    requires 0 in s.game.players && Expired(TickAll(s.game.bombs)) != {}
    ensures a.game.started && a.game.turn == 2 && a.game.toDestroy == s.game.players.Keys && !NobodyHit(a.game.turns)
  {
    hide Reachable, BeginTurn, NobodyHit, Expired, TickAll, LifeInv, TallyInv, TalkInv, Mirrored;
    EverythingHolds(TINY, rng, s);
    EverythingHolds(TINY, rng, a);
    EverybodyHit(s.game, a.game);
    SomebodyHit(a);
  }

  /** In turn 2 nothing is sent, the bomb explodes, and the game goes on. */
  lemma LastRound(rng: Rng, r: Run) returns (m: Server, r': Run)
    requires Real(TINY, rng, r) && r.now.game.started && r.now.game.turn == 1
    requires 0 in r.now.game.players && Expired(TickAll(r.now.game.bombs)) != {}
    ensures Real(TINY, rng, r') && r'.start == r.start && r'.table == r.table
    ensures r'.now.game.started && r'.now.base == r.now.base == m.base
    ensures Reachable(TINY, rng, m) && m.control.Polling? && m.game.started && 0 in m.game.toDestroy
    ensures Leads(TINY, rng, m, Ending(m.game), r'.now)
  {
    hide RoundsLead, OpenAfterAll, Leads, Reachable, RoundSteps, OpenAfter, BeginTurn, CloseTurn, Expired, TickAll,
         Ending;
    m := Silent(TINY, rng, r);
    r' := Ends(TINY, rng, r, Silence(), m);
    SomebodyIsHit(rng, r.now, m);
    CloseTurnLog(TINY, rng, m.game, CloseTurn(TINY, rng, m.game));
  }

  /** A client that connects second and so is never greeted can be killed by its first game. */
  lemma UngreetedCanDie(rng: Rng) returns (before: seq<Poll>, s: Server, after: seq<Poll>, s': Server)
    ensures AllValid(before) && RoundsLead(TINY, rng, INITIAL_SERVER, before, CLOSED, s)
    ensures OpenAfterAll(before, CLOSED)[2] && !s.game.started
    ensures AllValid(after) && RoundsLead(TINY, rng, s, after, OpenAfterAll(before, CLOSED), s') && s'.game.started
    ensures forall c: Client :: c.lobby.players == map[] ==> HearsAll(c, News(s, s', 2)).None?
  {
    hide Leads, Reachable, OpenAfterAll, HearsAll, News, Greeting, Expired, TickAll, RoundsLead, Ending;
    var two := TwoConnect(rng);
    before, s := two.polls, two.now;
    NoRounds(TINY, rng, s, two.open);
    var zero := TwoJoin(rng, Run(s, two.open, [], s, two.open));
    var one := PlaceOne(rng, zero);
    var m, last := LastRound(rng, one);
    after, s' := last.polls, last.now;
    var steps := RoundsAreSteps(TINY, rng, s, after, two.open, s');
    DiesUnknowing(rng, s, steps, m, s');
  }

  lemma DiesUnknowing(rng: Rng, s: Server, steps: seq<Step>, m: Server, s': Server)
    requires Reachable(TINY, rng, s) && s.game == Greet(TINY, FirstJoined(TINY), GREETED_SLOT)
    requires Leads(TINY, rng, s, steps, s') && s'.game.started && s'.base == s.base == m.base
    requires Reachable(TINY, rng, m) && m.control.Polling? && m.game.started && 0 in m.game.toDestroy
    requires Leads(TINY, rng, m, Ending(m.game), s')
    ensures forall c: Client :: c.lobby.players == map[] ==> HearsAll(c, News(s, s', 2)).None?
  {
    hide Leads, Reachable, HearsAll, News, Everything;
    EverythingHolds(TINY, rng, m);
    UngreetedSpares(TINY, rng, m, Ending(m.game), s', {0}, 2);
    assert s.game.players.Keys == {0};
    forall c: Client | c.lobby.players == map[] ensures HearsAll(c, News(s, s', 2)).None? {
      assert s.game.players.Keys - c.lobby.players.Keys == {0};
      UngreetedSurvivesExactly(TINY, rng, s, steps, s', c, 2);
    }
  }
}
