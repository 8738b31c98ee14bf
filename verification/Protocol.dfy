/** The server's side of the conversation. `Hear` is an independent checker of the message order the
    protocol promises; `Watch` is an observer who only applies the events it is sent. Both are shown
    to stay in step with the server through every step. */
module Protocol {
  import opened Types
  import opened Ordered
  import opened Blast
  import opened GameSpec
  import opened Invariant
  import opened TurnLog
  import opened Replay
  import opened Grammar
  import opened Scoring

  /** What every connected client is sent. */
  function Broadcasts(out: seq<Outgoing>): seq<ServerMessage> {
    if out == [] then [] else
      var n := |out| - 1;
      Broadcasts(out[..n]) + if out[n].ToAll? then [out[n].message] else []
  }

  /** What the client in one slot is sent. */
  function Stream(out: seq<Outgoing>, slot: nat): seq<ServerMessage> {
    if out == [] then [] else
      var n := |out| - 1;
      Stream(out[..n], slot) + if out[n].ToAll? || out[n].slot == slot then [out[n].message] else []
  }

  lemma {:induction false} StreamConcat(a: seq<Outgoing>, b: seq<Outgoing>, slot: nat)
    ensures Stream(a + b, slot) == Stream(a, slot) + Stream(b, slot)
  {
    if b == [] {
      assert a + b == a;
    } else {
      LastOfConcat(a, b);
      StreamConcat(a, b[..|b| - 1], slot);
    }
  }

  lemma {:induction false} BroadcastsConcat(a: seq<Outgoing>, b: seq<Outgoing>)
    ensures Broadcasts(a + b) == Broadcasts(a) + Broadcasts(b)
  {
    if b == [] {
      assert a + b == a;
    } else {
      LastOfConcat(a, b);
      BroadcastsConcat(a, b[..|b| - 1]);
    }
  }

  // ---------- the order of messages ----------

  /** Where a conversation stands: players gathering, or a game with the turns heard so far. */
  datatype Talk = Lobby(players: map<u8, Player>) | Playing(players: map<u8, Player>, turns: seq<TurnInfo>)

  /** The next state of a well-behaved conversation. Players join with consecutive ids up to the
      announced count, the game starts with exactly them, turns come numbered from 0, and after turn
      `gameLength` the game ends with each player's number of turns hit. */
  ghost function Hear(p: Params, t: Talk, m: ServerMessage): Option<Talk> {
    match t
    case Lobby(players) =>
      (match m
       case AcceptedPlayer(id, player) =>
         if id == |players| && id < p.playersCount then Some(Lobby(players[id := player])) else None
       case GameStarted(all) =>
         if all == players && |players| == p.playersCount then Some(Playing(players, [])) else None
       case _ => None)
    case Playing(players, turns) =>
      (match m
       case Turn(info) =>
         if info.turn == |turns| <= p.gameLength then Some(Playing(players, turns + [info])) else None
       case GameEnded(scores) =>
         if |turns| == p.gameLength + 1 && scores.Keys == players.Keys &&
            forall q :: q in scores ==> scores[q] == HitTurns(turns, q)
         then Some(Lobby(map[])) else None
       case _ => None)
  }

  ghost function HearAll(p: Params, ms: seq<ServerMessage>): Option<Talk> {
    if ms == [] then Some(Lobby(map[])) else
      match HearAll(p, ms[..|ms| - 1])
      case None => None
      case Some(t) => Hear(p, t, ms[|ms| - 1])
  }

  function Expected(s: Server): Talk
    requires s.game.started ==> s.game.turns != []
  {
    if s.game.started then Playing(s.game.players, Past(s)) else Lobby(s.game.players)
  }

  ghost predicate TalkInv(p: Params, s: Server) {
    (s.game.started ==> s.game.turns != []) && HearAll(p, Broadcasts(s.game.out)) == Some(Expected(s))
  }

  lemma HearOne(p: Params, out: seq<Outgoing>, m: ServerMessage)
    requires HearAll(p, Broadcasts(out)).Some?
    ensures HearAll(p, Broadcasts(out + [ToAll(m)])) == Hear(p, HearAll(p, Broadcasts(out)).value, m)
  {
    assert (out + [ToAll(m)])[..|out|] == out;
    var ms := Broadcasts(out);
    assert (ms + [m])[..|ms|] == ms;
  }

  lemma {:induction false} SlotsHearNothing(out: seq<Outgoing>)
    requires forall i :: 0 <= i < |out| ==> out[i].ToSlot?
    ensures Broadcasts(out) == []
  {
    if out != [] { SlotsHearNothing(out[..|out| - 1]); }
  }

  lemma GreetTalk(p: Params, g: Game)
    ensures Broadcasts(Greet(p, g, GREETED_SLOT).out) == Broadcasts(g.out)
  {
    hide Greeting, Broadcasts;
    SlotsHearNothing(Greeting(p, g, GREETED_SLOT));
    BroadcastsConcat(g.out, Greeting(p, g, GREETED_SLOT));
  }

  lemma AcceptTalk(p: Params, g: Game, slot: nat, name: seq<u8>, address: seq<u8>)
    requires p.Valid() && PlayersInv(p, g) && !g.started
    requires HearAll(p, Broadcasts(g.out)) == Some(Lobby(g.players))
    ensures var a := Accept(g, slot, name, address);
            HearAll(p, Broadcasts(a.out)) == Some(Lobby(a.players))
  {
    hide HearAll, Broadcasts;
    DenseCard(g.players.Keys, g.nextPlayer);
    assert |g.players| == |g.players.Keys|;
    HearOne(p, g.out, AcceptedPlayer(g.nextPlayer, Player(name, address)));
  }

  lemma StartTalk(p: Params, rng: Rng, a: Game, s': Server)
    requires p.Valid() && Idle(a) && |a.players| == p.playersCount && s'.game == StartGameplay(p, rng, a)
    requires s'.control.Polling? && HearAll(p, Broadcasts(a.out)) == Some(Lobby(a.players))
    ensures TalkInv(p, s')
  {
    hide HearAll, Broadcasts, StartGameplay, Moves, Walls;
    StartGameplayLog(p, rng, a, s'.game);
    HearOne(p, a.out, GameStarted(a.players));
    assert s'.game.turns[..0] == [];
  }

  lemma JoinTalk(p: Params, rng: Rng, s: Server, slot: nat, m: ClientMessage, address: seq<u8>, stale: Position)
    requires Inv(p, s) && TalkInv(p, s) && !s.game.started && Enabled(p, s, Receive(slot, m, address, stale))
    requires Handle(p, rng, s.game, slot, m, address, stale).Running?
    ensures TalkInv(p, Record(s, slot, m, Handle(p, rng, s.game, slot, m, address, stale).game))
  {
    hide StartGameplay, HearAll, Broadcasts;
    var g, r := s.game, Handle(p, rng, s.game, slot, m, address, stale).game;
    if m.Join? {
      var a := Accept(g, slot, m.name, address);
      AcceptKeeps(p, g, slot, m.name, address);
      AcceptTalk(p, g, slot, m.name, address);
      if |a.players| == p.playersCount {
        StartTalk(p, rng, a, Record(s, slot, m, r));
      }
    }
  }

  lemma PastOfAppend(turns: seq<TurnInfo>, extra: seq<Event>)
    requires turns != []
    ensures Append(turns, extra)[..|turns| - 1] == turns[..|turns| - 1]
    ensures Append(turns, extra) == turns[..|turns| - 1] + [Append(turns, extra)[|turns| - 1]]
  {
  }

  lemma ReceiveTalk(p: Params, rng: Rng, s: Server, slot: nat, m: ClientMessage, address: seq<u8>, stale: Position)
    requires Inv(p, s) && TalkInv(p, s) && s.game.started && s.acts != []
    requires Enabled(p, s, Receive(slot, m, address, stale))
    ensures Handle(p, rng, s.game, slot, m, address, stale).Running?
    ensures TalkInv(p, Record(s, slot, m, Handle(p, rng, s.game, slot, m, address, stale).game))
  {
    hide Handle, Record, HearAll, Broadcasts, Append;
    HandleLog(p, rng, s, slot, m, address, stale);
    ActionFrame(p, rng, s.game, slot, m, address, stale);
    if Effective(p, s.game, slot, m, stale) {
      PastOfAppend(s.game.turns, [ActionEvent(s.game, slot, m, stale)]);
    }
  }

  lemma CloseTurnTalk(p: Params, rng: Rng, s: Server, r: Game)
    requires TalkInv(p, s) && s.game.started && s.control.Polling? && PlayingInv(p, s.game)
    requires p.Valid() && s.game.toDestroy <= s.game.scores.Keys && r == CloseTurn(p, rng, s.game)
    ensures r.started && TalkInv(p, s.(game := r, control := Closed))
  {
    hide CloseTurn, HearAll, Broadcasts, Append;
    CloseTurnLog(p, rng, s.game, r);
    PastOfAppend(s.game.turns, Moves(p, rng, Sorted8(s.game.toDestroy), s.game.draws));
    HearOne(p, s.game.out, Turn(r.turns[r.turn]));
    AppendKeepsNumber(s.game.turns, Moves(p, rng, Sorted8(s.game.toDestroy), s.game.draws));
  }

  lemma AppendKeepsNumber(turns: seq<TurnInfo>, extra: seq<Event>)
    requires turns != []
    ensures |Append(turns, extra)| == |turns| && Append(turns, extra)[|turns| - 1].turn == turns[|turns| - 1].turn
  {
  }

  lemma EndTalk(p: Params, s: Server)
    requires Inv(p, s) && ScoreInv(s) && TalkInv(p, s) && s.control.Closed? && s.game.turn == p.gameLength
    ensures TalkInv(p, Server(EndGameplay(s.game), Top, s.game.draws, [], []))
  {
    hide HearAll, Broadcasts;
    HearOne(p, s.game.out, GameEnded(s.game.scores));
  }

  lemma TalkNext(p: Params, rng: Rng, s: Server, step: Step)
    requires Inv(p, s) && ScoreInv(s) && TalkInv(p, s) && (s.game.started ==> s.acts != [])
    requires Enabled(p, s, step) && Next(p, rng, s, step).Alive?
    ensures TalkInv(p, Next(p, rng, s, step).server)
  {
    hide Broadcasts, HearAll, BeginTurn, CloseTurn, Handle, Record, Greeting;
    match step
    case StartRound =>
      if s.game.started {
        BeginTurnLog(p, s.game, BeginTurn(p, s.game));
        assert BeginTurn(p, s.game).turns[..|s.game.turns|] == s.game.turns;
      }
    case AcceptClient =>
      GreetTalk(p, s.game);
    case Receive(slot, m, address, stale) =>
      if s.game.started {
        ReceiveTalk(p, rng, s, slot, m, address, stale);
      } else {
        JoinTalk(p, rng, s, slot, m, address, stale);
      }
    case EndRound =>
      if s.game.started { CloseTurnTalk(p, rng, s, CloseTurn(p, rng, s.game)); }
    case Continue =>
      if s.game.turn == p.gameLength { EndTalk(p, s); }
  }

  // ---------- observers ----------

  /** An observer starts over when a game starts and applies the events of every turn it is sent. */
  function Watch(w: World, m: ServerMessage): World {
    match m
    case GameStarted(_) => EMPTY_WORLD
    case Turn(info) => Apply(w, info.events)
    case _ => w
  }

  function WatchAll(w: World, ms: seq<ServerMessage>): World {
    if ms == [] then w else Watch(WatchAll(w, ms[..|ms| - 1]), ms[|ms| - 1])
  }

  lemma {:induction false} WatchConcat(w: World, a: seq<ServerMessage>, b: seq<ServerMessage>)
    ensures WatchAll(w, a + b) == WatchAll(WatchAll(w, a), b)
  {
    if b == [] {
      assert a + b == a;
    } else {
      LastOfConcat(a, b);
      WatchConcat(w, a, b[..|b| - 1]);
    }
  }

  /** `w` is the replay of the past turns and of some of the explosions of the turn under way. */
  ghost predicate Ahead(g: Game, w: World, k: nat)
    requires g.turns != [] && k <= |LastEvents(g)|
  {
    AllExplosions(LastEvents(g)[..k]) && w == Apply(ReplayTurns(g.turns[..|g.turns| - 1]), LastEvents(g)[..k])
  }

  /** An observer is in step when it has seen the past turns, and of the turn under way at most a
      prefix of its explosions. Outside a gameplay nothing is asked of it. */
  ghost predicate InStep(s: Server, w: World) {
    s.game.started ==>
      && s.game.turns != []
      && (if s.control.Polling? then exists k :: 0 <= k <= |LastEvents(s.game)| && Ahead(s.game, w, k)
          else w == ReplayTurns(s.game.turns))
  }

  /** The messages a step sends to one slot. */
  function News(s: Server, s': Server, slot: nat): seq<ServerMessage> {
    if |s.game.out| <= |s'.game.out| then Stream(s'.game.out[|s.game.out|..], slot) else []
  }

  lemma NewsIs(s: Server, s': Server, more: seq<Outgoing>, slot: nat)
    requires s'.game.out == s.game.out + more
    ensures News(s, s', slot) == Stream(more, slot)
  {
    assert s'.game.out[|s.game.out|..] == more;
  }

  lemma OneMessage(w: World, m: ServerMessage, slot: nat)
    ensures WatchAll(w, Stream([ToAll(m)], slot)) == Watch(w, m)
  {
    assert [ToAll(m)][..0] == [];
    assert [] + [m] == [m] && [m][..0] == [];
  }

  lemma NoNews(s: Server, s': Server, w: World, slot: nat)
    requires s'.game.out == s.game.out
    ensures WatchAll(w, News(s, s', slot)) == w
  {
    NewsIs(s, s', [], slot);
    assert s.game.out + [] == s.game.out;
  }

  // A greeting brings the greeted slot's observer into step from any state.

  lemma OneMoreSent(slot: nat, turns: seq<TurnInfo>)
    requires turns != []
    ensures var n := |turns| - 1;
            Stream(SendTurns(slot, turns), slot) == Stream(SendTurns(slot, turns[..n]), slot) + [Turn(turns[n])]
  {
    var n := |turns| - 1;
    assert SendTurns(slot, turns)[..n] == SendTurns(slot, turns[..n]);
  }

  lemma WatchLast(w: World, ms: seq<ServerMessage>, m: ServerMessage)
    ensures WatchAll(w, ms + [m]) == Watch(WatchAll(w, ms), m)
  {
    assert (ms + [m])[..|ms|] == ms;
  }

  lemma {:induction false} WatchTurns(w: World, slot: nat, turns: seq<TurnInfo>)
    ensures WatchAll(w, Stream(SendTurns(slot, turns), slot)) == ApplyTurns(w, turns)
  {
    if turns != [] {
      hide Stream, SendTurns, WatchAll, Apply;
      var n := |turns| - 1;
      WatchTurns(w, slot, turns[..n]);
      OneMoreSent(slot, turns);
      WatchLast(w, Stream(SendTurns(slot, turns[..n]), slot), Turn(turns[n]));
    }
  }

  function ApplyTurns(w: World, turns: seq<TurnInfo>): World {
    if turns == [] then w else Apply(ApplyTurns(w, turns[..|turns| - 1]), turns[|turns| - 1].events)
  }

  lemma {:induction false} ApplyTurnsIsReplay(turns: seq<TurnInfo>)
    ensures ApplyTurns(EMPTY_WORLD, turns) == ReplayTurns(turns)
  {
    if turns != [] { ApplyTurnsIsReplay(turns[..|turns| - 1]); }
  }

  lemma OneToSlot(w: World, m: ServerMessage, slot: nat)
    ensures WatchAll(w, Stream([ToSlot(slot, m)], slot)) == Watch(w, m)
  {
    assert [ToSlot(slot, m)][..0] == [];
    assert [] + [m] == [m] && [m][..0] == [];
  }

  lemma GreetingWorld(p: Params, g: Game, slot: nat, w: World)
    requires g.started
    ensures WatchAll(w, Stream(Greeting(p, g, slot), slot)) == ReplayTurns(g.turns)
  {
    hide Stream, WatchAll, SendTurns;
    var a, b, c := [ToSlot(slot, HelloMessage(p))], [ToSlot(slot, GameStarted(g.players))], SendTurns(slot, g.turns);
    assert Greeting(p, g, slot) == a + (b + c);
    StreamConcat(a, b + c, slot);
    StreamConcat(b, c, slot);
    WatchConcat(w, Stream(a, slot), Stream(b, slot) + Stream(c, slot));
    WatchConcat(w, Stream(b, slot), Stream(c, slot));
    OneToSlot(w, HelloMessage(p), slot);
    OneToSlot(w, GameStarted(g.players), slot);
    WatchTurns(EMPTY_WORLD, slot, g.turns);
    ApplyTurnsIsReplay(g.turns);
  }

  lemma ReplayLast(turns: seq<TurnInfo>)
    requires turns != []
    ensures ReplayTurns(turns) == Apply(ReplayTurns(turns[..|turns| - 1]), turns[|turns| - 1].events)
  {
  }

  lemma NoneBelowZero(slots: map<nat, u8>, q: u8)
    ensures !Below(slots, 0, q)
  {
  }

  /** Before any message of the round is handled the current turn holds only explosions. */
  lemma OnlyExplosions(p: Params, s: Server)
    requires GrammarInv(p, s) && s.game.started && s.control == Polling(0)
    ensures AllExplosions(LastEvents(s.game))
  {
    hide PastTurns, Hit, Justified, Finished;
    var g, e := s.game, LastEvents(s.game);
    if s.acts[g.turn] != [] { NoneBelowZero(g.slots, s.acts[g.turn][0].player); }
    assert e[..|e|] == e;
  }

  /** A late joiner in the greeted slot is in step at once, whatever it knew: the replayed current
      turn holds only explosions. */
  lemma GreetingBringsIntoStep(p: Params, s: Server, s': Server, w: World)
    requires GrammarInv(p, s) && s.game.started && s.control == Polling(0)
    requires s' == s.(game := Greet(p, s.game, GREETED_SLOT), control := Polling(1))
    ensures InStep(s', WatchAll(w, News(s, s', GREETED_SLOT)))
  {
    hide Greeting, PastTurns, UnderWay, Opens;
    var g, e := s.game, LastEvents(s.game);
    NewsIs(s, s', Greeting(p, g, GREETED_SLOT), GREETED_SLOT);
    GreetingWorld(p, g, GREETED_SLOT, w);
    OnlyExplosions(p, s);
    assert e[..|e|] == e;
    assert Ahead(s'.game, ReplayTurns(g.turns), |e|) by { ReplayLast(g.turns); }
  }

  /** A greeting says nothing to any other slot, the new client's own slot included when it is not
      the first (game-engine.cpp:52). */
  lemma {:induction false} OthersHearNothing(out: seq<Outgoing>, greeted: nat, slot: nat)
    requires slot != greeted && forall i :: 0 <= i < |out| ==> out[i].ToSlot? && out[i].slot == greeted
    ensures Stream(out, slot) == []
  {
    if out != [] { OthersHearNothing(out[..|out| - 1], greeted, slot); }
  }

  lemma GreetingMissesOtherSlots(p: Params, s: Server, s': Server, slot: nat)
    requires s'.game == Greet(p, s.game, GREETED_SLOT) && slot != GREETED_SLOT
    ensures News(s, s', slot) == []
  {
    hide Greeting;
    NewsIs(s, s', Greeting(p, s.game, GREETED_SLOT), slot);
    OthersHearNothing(Greeting(p, s.game, GREETED_SLOT), GREETED_SLOT, slot);
  }

  // Every step keeps every observer in step.

  lemma BeginInStep(p: Params, s: Server, r: Game, w: World)
    requires InStep(s, w) && s.game.started && s.control.Top? && Shaped(s.game) && Settled(s.game)
    requires s.game.turn < 0xFFFF && r == BeginTurn(p, s.game)
    ensures r.started && r.out == s.game.out && InStep(Server(r, Polling(0), s.base, s.born, s.acts + [[]]), w)
  {
    hide BeginTurn, Opening;
    BeginTurnLog(p, s.game, r);
    assert r.turns[..|r.turns| - 1] == s.game.turns;
    assert LastEvents(r)[..0] == [];
    assert Ahead(r, w, 0);
  }

  lemma ActionInStep(s: Server, r: Game, e: Event, w: World, slot: nat, m: ClientMessage)
    requires InStep(s, w) && s.game.started && s.control.Polling? && s.acts != [] && slot in s.game.slots
    requires r.started && r.turns == Append(s.game.turns, [e])
    ensures InStep(Acted(s, slot, m, r), w)
  {
    var e0, n := LastEvents(s.game), |s.game.turns| - 1;
    var k :| 0 <= k <= |e0| && Ahead(s.game, w, k);
    assert LastEvents(r)[..k] == e0[..k];
    assert r.turns[..n] == s.game.turns[..n];
    assert Ahead(r, w, k);
  }

  lemma FinishAhead(g: Game, w: World, moves: seq<Event>)
    requires g.turns != [] && exists k :: 0 <= k <= |LastEvents(g)| && Ahead(g, w, k)
    ensures Apply(w, LastEvents(g) + moves) == ReplayTurns(Append(g.turns, moves))
  {
    hide Apply;
    var e0, n := LastEvents(g), |g.turns| - 1;
    var k :| 0 <= k <= |e0| && Ahead(g, w, k);
    assert e0 + moves == e0[..k] + (e0[k..] + moves);
    ExplosionsTwice(ReplayTurns(g.turns[..n]), e0[..k], e0[k..] + moves);
    ReplayLast(Append(g.turns, moves));
    assert Append(g.turns, moves)[..n] == g.turns[..n];
  }

  lemma CloseInStep(p: Params, rng: Rng, s: Server, r: Game, w: World, slot: nat)
    requires InStep(s, w) && s.game.started && s.control.Polling? && Shaped(s.game)
    requires p.Valid() && s.game.toDestroy <= s.game.scores.Keys && r == CloseTurn(p, rng, s.game)
    ensures r.started
    ensures var s' := s.(game := r, control := Closed); InStep(s', WatchAll(w, News(s, s', slot)))
  {
    hide CloseTurn, Moves, Apply, Ahead, WatchAll, Stream;
    CloseTurnLog(p, rng, s.game, r);
    var s', n := s.(game := r, control := Closed), s.game.turn;
    var moves := Moves(p, rng, Sorted8(s.game.toDestroy), s.game.draws);
    FinishAhead(s.game, w, moves);
    NewsIs(s, s', [ToAll(Turn(r.turns[n]))], slot);
    OneMessage(w, Turn(r.turns[n]), slot);
  }

  lemma StartInStep(p: Params, rng: Rng, s: Server, a: Game, x: ServerMessage, s': Server, w: World, to: nat)
    requires p.Valid() && Idle(a) && s'.game == StartGameplay(p, rng, a) && s'.control.Polling?
    requires a.out == s.game.out + [ToAll(x)]
    ensures InStep(s', WatchAll(w, News(s, s', to)))
  {
    hide StartGameplay, Moves, Walls, Stream, WatchAll;
    StartGameplayLog(p, rng, a, s'.game);
    var y := GameStarted(a.players);
    NewsIs(s, s', [ToAll(x)] + [ToAll(y)], to);
    StreamConcat([ToAll(x)], [ToAll(y)], to);
    WatchConcat(w, Stream([ToAll(x)], to), Stream([ToAll(y)], to));
    OneMessage(w, x, to);
    OneMessage(WatchAll(w, Stream([ToAll(x)], to)), y, to);
    assert s'.game.turns[..0] == [] && LastEvents(s'.game)[..0] == [];
    assert Ahead(s'.game, EMPTY_WORLD, 0);
  }

  lemma JoinInStep(p: Params, rng: Rng, s: Server, slot: nat, m: ClientMessage, address: seq<u8>, stale: Position,
      w: World, to: nat)
    requires Inv(p, s) && !s.game.started && Enabled(p, s, Receive(slot, m, address, stale))
    requires Handle(p, rng, s.game, slot, m, address, stale).Running?
    ensures var s' := Record(s, slot, m, Handle(p, rng, s.game, slot, m, address, stale).game);
            InStep(s', WatchAll(w, News(s, s', to)))
  {
    hide StartGameplay, Stream, WatchAll, News;
    var g, r := s.game, Handle(p, rng, s.game, slot, m, address, stale).game;
    if m.Join? {
      var a := Accept(g, slot, m.name, address);
      AcceptKeeps(p, g, slot, m.name, address);
      if |a.players| == p.playersCount {
        StartInStep(p, rng, s, a, AcceptedPlayer(g.nextPlayer, Player(m.name, address)), Record(s, slot, m, r), w, to);
      }
    }
  }

  lemma InStepNext(p: Params, rng: Rng, s: Server, step: Step, w: World, slot: nat)
    requires Inv(p, s) && GrammarInv(p, s) && Enabled(p, s, step) && Next(p, rng, s, step).Alive?
    requires InStep(s, w)
    ensures InStep(Next(p, rng, s, step).server, WatchAll(w, News(s, Next(p, rng, s, step).server, slot)))
  {
    hide BeginTurn, CloseTurn, Handle, Record, News, WatchAll, PastTurns, CurrentTurn;
    var s' := Next(p, rng, s, step).server;
    match step
    case StartRound =>
      if s.game.started { BeginInStep(p, s, BeginTurn(p, s.game), w); }
      NoNews(s, s', w, slot);
    case AcceptClient => GreetInStep(p, s, s', w, slot);
    case Receive(from, m, address, stale) =>
      if s.game.started {
        ReceiveInStep(p, rng, s, from, m, address, stale, w, slot);
      } else {
        JoinInStep(p, rng, s, from, m, address, stale, w, slot);
      }
    case EndRound =>
      if s.game.started { CloseInStep(p, rng, s, CloseTurn(p, rng, s.game), w, slot); }
    case Continue =>
      if s.game.turn != p.gameLength { NoNews(s, s', w, slot); }
  }

  lemma GreetInStep(p: Params, s: Server, s': Server, w: World, slot: nat)
    requires GrammarInv(p, s) && InStep(s, w) && s.control == Polling(0)
    requires s' == s.(game := Greet(p, s.game, GREETED_SLOT), control := Polling(1))
    ensures InStep(s', WatchAll(w, News(s, s', slot)))
  {
    if slot != GREETED_SLOT {
      GreetingMissesOtherSlots(p, s, s', slot);
      if s.game.started {
        var k :| 0 <= k <= |LastEvents(s.game)| && Ahead(s.game, w, k);
        assert Ahead(s'.game, w, k);
      }
    } else if s.game.started {
      GreetingBringsIntoStep(p, s, s', w);
    }
  }

  lemma ReceiveInStep(p: Params, rng: Rng, s: Server, from: nat, m: ClientMessage, address: seq<u8>,
      stale: Position, w: World, slot: nat)
    requires Inv(p, s) && InStep(s, w) && s.game.started && s.acts != []
    requires Enabled(p, s, Receive(from, m, address, stale))
    ensures Handle(p, rng, s.game, from, m, address, stale).Running?
    ensures var s' := Record(s, from, m, Handle(p, rng, s.game, from, m, address, stale).game);
            InStep(s', WatchAll(w, News(s, s', slot)))
  {
    hide Handle, Record, Append;
    HandleLog(p, rng, s, from, m, address, stale);
    var r := Handle(p, rng, s.game, from, m, address, stale).game;
    ActionFrame(p, rng, s.game, from, m, address, stale);
    if Effective(p, s.game, from, m, stale) {
      ActionInStep(s, r, ActionEvent(s.game, from, m, stale), w, from, m);
    }
    NoNews(s, Record(s, from, m, r), w, slot);
  }

  /** After a finished turn an observer in step knows exactly the server's board. */
  lemma InStepIsExact(s: Server, w: World)
    requires InStep(s, w) && Mirrored(s.game) && s.game.started && !s.control.Polling? && s.game.toDestroy == {}
    ensures w == World(s.game.positions, s.game.blocks, Cells(s.game.bombs))
  {
    assert s.game.positions - {} == s.game.positions;
  }
}
