/** The conversation with one slot. `Listen` is an independent checker of what a connected client may be
    told, greetings included, that remembers the players and the log it was told. A listener in the
    greeted slot, or one there from the start, is never told anything out of order, and after every
    finished turn has the server's players and its whole log. */
module Listening {
  import opened Types
  import opened Ordered
  import opened Blast
  import opened GameSpec
  import opened Invariant
  import opened TurnLog
  import opened Replay
  import opened BombLife
  import opened Grammar
  import opened Scoring
  import opened Protocol
  import opened Runs

  /** A greeting names the server's parameters and starts over. Players are announced in order of id; a
      game starts with the players announced, or, in a greeting, with any. Turns come in order, the turn
      under way possibly first as far as it has got. A game ends with each player's turns hit. */
  ghost function Listen(p: Params, t: Talk, m: ServerMessage): Option<Talk> {
    match m
    case Hello(name, count, x, y, length, radius, timer) =>
      if name == p.serverName && count == p.playersCount && x == p.sizeX && y == p.sizeY && length == p.gameLength &&
         radius == p.explosionRadius && timer == p.bombTimer
      then Some(Lobby(map[])) else None
    case AcceptedPlayer(id, player) =>
      if t.Lobby? && id == |t.players| then Some(Lobby(t.players[id := player])) else None
    case GameStarted(all) =>
      if t.Lobby? && (t.players == all || t.players == map[]) then Some(Playing(all, [])) else None
    case Turn(info) =>
      if t.Lobby? then None else
        var n := |t.turns|;
        if info.turn == n then Some(Playing(t.players, t.turns + [info]))
        else if n > 0 && info.turn == n - 1 && t.turns[n - 1].events <= info.events
        then Some(Playing(t.players, t.turns[..n - 1] + [info])) else None
    case GameEnded(scores) =>
      if t.Playing? && scores.Keys == t.players.Keys && forall q :: q in scores ==> scores[q] == HitTurns(t.turns, q)
      then Some(Lobby(map[])) else None
  }

  ghost function ListenAll(p: Params, t: Talk, ms: seq<ServerMessage>): Option<Talk> {
    if ms == [] then Some(t) else
      match ListenAll(p, t, ms[..|ms| - 1])
      case None => None
      case Some(u) => Listen(p, u, ms[|ms| - 1])
  }

  lemma {:induction false} ListenConcat(p: Params, t: Talk, a: seq<ServerMessage>, b: seq<ServerMessage>)
    requires ListenAll(p, t, a).Some?
    ensures ListenAll(p, t, a + b) == ListenAll(p, ListenAll(p, t, a).value, b)
  {
    if b == [] {
      assert a + b == a;
    } else {
      LastOfConcat(a, b);
      ListenConcat(p, t, a, b[..|b| - 1]);
    }
  }

  lemma ListenOne(p: Params, t: Talk, m: ServerMessage)
    ensures ListenAll(p, t, [m]) == Listen(p, t, m)
  {
    assert [m][..0] == [];
    assert ListenAll(p, t, []) == Some(t);
  }

  lemma ListenNone(p: Params, t: Talk)
    ensures ListenAll(p, t, []) == Some(t)
  {
  }

  lemma ToOne(m: ServerMessage, slot: nat)
    ensures Stream([ToAll(m)], slot) == [m] && Stream([ToSlot(slot, m)], slot) == [m]
  {
    assert [ToAll(m)][..0] == [] && [ToSlot(slot, m)][..0] == [];
  }

  /** It knows the players and the finished turns, and of a turn under way at most how it began. */
  ghost predicate InTouch(s: Server, t: Talk) {
    if !s.game.started then t == Lobby(s.game.players) else
      && s.game.turns != [] && t.Playing? && t.players == s.game.players
      && (t.turns == Past(s) || (s.control.Polling? && Begun(s, t)))
  }

  ghost predicate Begun(s: Server, t: Talk)
    requires s.game.started && s.game.turns != [] && t.Playing?
  {
    var n := |Past(s)|;
    && |t.turns| == n + 1 && t.turns[..n] == Past(s) && t.turns[n].turn == n
    && t.turns[n].events <= LastEvents(s.game)
  }

  // ---------- greetings ----------

  /** The players with ids below `k`. */
  function Below8(players: map<u8, Player>, k: nat): map<u8, Player> {
    map q | q in players && q < k :: players[q]
  }

  lemma OneMoreBelow(players: map<u8, Player>, k: nat, n: u8)
    requires k < n && forall q: u8 :: q in players <==> q < n
    ensures Below8(players, k + 1) == Below8(players, k)[k := players[k]] && |Below8(players, k)| == k
  {
    DenseSize(Below8(players, k), k);
  }

  lemma OneMoreAnnounced(p: Params, players: map<u8, Player>, n: u8, slot: nat, k: nat)
    requires k < n && forall q: u8 :: q in players <==> q < n
    ensures var before, ids: seq<u8> := seq(k, i => i), seq(k + 1, i => i);
            && (forall i :: 0 <= i < |ids| ==> ids[i] in players)
            && SendAccepted(players, slot, ids) ==
               SendAccepted(players, slot, before) + [ToSlot(slot, AcceptedPlayer(k, players[k]))]
    ensures Listen(p, Lobby(Below8(players, k)), AcceptedPlayer(k, players[k])) == Some(Lobby(Below8(players, k + 1)))
  {
    OneMoreBelow(players, k, n);
  }

  lemma {:induction false} HearsPlayers(p: Params, players: map<u8, Player>, n: u8, slot: nat, k: nat)
    requires k <= n && forall q: u8 :: q in players <==> q < n
    ensures var ids := seq(k, i => i);
            && (forall i :: 0 <= i < |ids| ==> ids[i] in players)
            && ListenAll(p, Lobby(map[]), Stream(SendAccepted(players, slot, ids), slot)) ==
               Some(Lobby(Below8(players, k)))
  {
    if k == 0 {
      assert Below8(players, 0) == map[];
      ListenNone(p, Lobby(map[]));
    } else {
      hide Stream, ListenAll, Below8, Listen, SendAccepted;
      var before: seq<u8> := seq(k - 1, i => i);
      HearsPlayers(p, players, n, slot, k - 1);
      OneMoreAnnounced(p, players, n, slot, k - 1);
      var a, m := SendAccepted(players, slot, before), AcceptedPlayer(k - 1, players[k - 1]);
      StreamConcat(a, [ToSlot(slot, m)], slot);
      ToOne(m, slot);
      ListenConcat(p, Lobby(map[]), Stream(a, slot), [m]);
      ListenOne(p, Lobby(Below8(players, k - 1)), m);
    }
  }

  lemma NextTurnHeard(p: Params, players: map<u8, Player>, turns: seq<TurnInfo>)
    requires turns != [] && Numbered(turns)
    ensures var n := |turns| - 1;
            && Numbered(turns[..n])
            && Listen(p, Playing(players, turns[..n]), Turn(turns[n])) == Some(Playing(players, turns))
  {
    assert turns[..|turns| - 1] + [turns[|turns| - 1]] == turns;
  }

  lemma {:induction false} HearsLog(p: Params, players: map<u8, Player>, slot: nat, turns: seq<TurnInfo>)
    requires Numbered(turns)
    ensures ListenAll(p, Playing(players, []), Stream(SendTurns(slot, turns), slot)) == Some(Playing(players, turns))
  {
    if turns == [] {
      ListenNone(p, Playing(players, []));
    } else {
      hide Stream, ListenAll, Listen, Numbered;
      var n := |turns| - 1;
      NextTurnHeard(p, players, turns);
      HearsLog(p, players, slot, turns[..n]);
      var a, m := SendTurns(slot, turns[..n]), Turn(turns[n]);
      assert SendTurns(slot, turns) == a + [ToSlot(slot, m)];
      StreamConcat(a, [ToSlot(slot, m)], slot);
      ToOne(m, slot);
      ListenConcat(p, Playing(players, []), Stream(a, slot), [m]);
      ListenOne(p, Playing(players, turns[..n]), m);
    }
  }

  /** Whatever the greeted client knew, it is told the parameters and then the players who have joined, or
      the players of the game and the log as far as it goes. */
  lemma GreetingTells(p: Params, g: Game, t: Talk, slot: nat)
    requires PlayersInv(p, g) && Numbered(g.turns)
    ensures ListenAll(p, t, Stream(Greeting(p, g, slot), slot)) ==
            Some(if g.started then Playing(g.players, g.turns) else Lobby(g.players))
  {
    hide Stream, ListenAll, SendAccepted, SendTurns, Sorted;
    var hello := [ToSlot(slot, HelloMessage(p))];
    ToOne(HelloMessage(p), slot);
    ListenOne(p, t, HelloMessage(p));
    if g.started {
      var start, rest := [ToSlot(slot, GameStarted(g.players))], SendTurns(slot, g.turns);
      assert Greeting(p, g, slot) == hello + (start + rest);
      StreamConcat(hello, start + rest, slot);
      StreamConcat(start, rest, slot);
      ToOne(GameStarted(g.players), slot);
      ListenConcat(p, t, Stream(hello, slot), Stream(start, slot) + Stream(rest, slot));
      ListenOne(p, Lobby(map[]), GameStarted(g.players));
      ListenConcat(p, Lobby(map[]), Stream(start, slot), Stream(rest, slot));
      HearsLog(p, g.players, slot, g.turns);
    } else {
      var rest := SendAccepted(g.players, slot, Sorted8(g.players.Keys));
      StreamConcat(hello, rest, slot);
      ListenConcat(p, t, Stream(hello, slot), Stream(rest, slot));
      SortedDense(g.players.Keys, g.nextPlayer);
      HearsPlayers(p, g.players, g.nextPlayer, slot, g.nextPlayer);
      assert Below8(g.players, g.nextPlayer) == g.players;
    }
  }

  // ---------- every step ----------

  /** The listener goes on from `s` to `s'`. */
  ghost predicate GoesOn(p: Params, s: Server, s': Server, t: Talk, slot: nat) {
    var u := ListenAll(p, t, News(s, s', slot));
    u.Some? && InTouch(s', u.value)
  }

  lemma Silence(p: Params, s: Server, s': Server, t: Talk, slot: nat)
    requires s'.game.out == s.game.out && InTouch(s', t)
    ensures GoesOn(p, s, s', t, slot)
  {
    NewsIs(s, s', [], slot);
    assert s.game.out + [] == s.game.out;
    ListenNone(p, t);
  }

  lemma OneTold(p: Params, s: Server, s': Server, m: ServerMessage, t: Talk, slot: nat)
    requires s'.game.out == s.game.out + [ToAll(m)]
    requires Listen(p, t, m).Some? && InTouch(s', Listen(p, t, m).value)
    ensures GoesOn(p, s, s', t, slot)
  {
    hide Listen, InTouch, Stream, News, ListenAll;
    NewsIs(s, s', [ToAll(m)], slot);
    ToOne(m, slot);
    ListenOne(p, t, m);
  }

  /** A greeting brings the greeted slot in touch from anywhere, and leaves the other slots alone. */
  lemma GreetInTouch(p: Params, s: Server, s': Server, t: Talk, slot: nat)
    requires Inv(p, s) && GrammarInv(p, s) && s.control == Polling(0)
    requires s' == s.(game := Greet(p, s.game, GREETED_SLOT), control := Polling(1))
    requires slot == GREETED_SLOT || InTouch(s, t)
    ensures GoesOn(p, s, s', t, slot)
  {
    hide Greeting, Stream, News, ListenAll, PastTurns, CurrentTurn;
    if slot == GREETED_SLOT {
      NewsIs(s, s', Greeting(p, s.game, slot), slot);
      GreetingTells(p, s.game, t, slot);
    } else {
      GreetingMissesOtherSlots(p, s, s', slot);
      ListenNone(p, t);
    }
  }

  lemma StartInTouch(p: Params, rng: Rng, s: Server, a: Game, x: ServerMessage, s': Server, t: Talk, slot: nat)
    requires p.Valid() && Idle(a) && s'.game == StartGameplay(p, rng, a) && s'.control.Polling?
    requires a.out == s.game.out + [ToAll(x)] && Listen(p, t, x) == Some(Lobby(a.players))
    ensures GoesOn(p, s, s', t, slot)
  {
    hide StartGameplay, Moves, Walls, Stream, ListenAll, Listen;
    StartGameplayLog(p, rng, a, s'.game);
    var y := GameStarted(a.players);
    NewsIs(s, s', [ToAll(x)] + [ToAll(y)], slot);
    StreamConcat([ToAll(x)], [ToAll(y)], slot);
    ToOne(x, slot);
    ToOne(y, slot);
    ListenOne(p, t, x);
    ListenConcat(p, t, [x], [y]);
    ListenOne(p, Lobby(a.players), y);
    StartHeard(p, a.players);
    assert s'.game.turns[..0] == [];
  }

  lemma StartHeard(p: Params, players: map<u8, Player>)
    ensures Listen(p, Lobby(players), GameStarted(players)) == Some(Playing(players, []))
  {
  }

  lemma JoinInTouch(p: Params, rng: Rng, s: Server, from: nat, m: ClientMessage, address: seq<u8>, stale: Position,
      t: Talk, slot: nat)
    requires Inv(p, s) && !s.game.started && InTouch(s, t) && Enabled(p, s, Receive(from, m, address, stale))
    requires Handle(p, rng, s.game, from, m, address, stale).Running?
    ensures GoesOn(p, s, Record(s, from, m, Handle(p, rng, s.game, from, m, address, stale).game), t, slot)
  {
    hide StartGameplay, GoesOn;
    var g, r := s.game, Handle(p, rng, s.game, from, m, address, stale).game;
    var s' := Record(s, from, m, r);
    if m.Join? {
      var a := Accept(g, from, m.name, address);
      AcceptKeeps(p, g, from, m.name, address);
      DenseSize(g.players, g.nextPlayer);
      var told := AcceptedPlayer(g.nextPlayer, Player(m.name, address));
      assert Listen(p, t, told) == Some(Lobby(a.players));
      if |a.players| == p.playersCount {
        StartInTouch(p, rng, s, a, told, s', t, slot);
      } else {
        OneTold(p, s, s', told, t, slot);
      }
    } else {
      Silence(p, s, s', t, slot);
    }
  }

  lemma ActionInTouch(p: Params, rng: Rng, s: Server, from: nat, m: ClientMessage, address: seq<u8>, stale: Position,
      t: Talk, slot: nat)
    requires Inv(p, s) && s.game.started && s.acts != [] && InTouch(s, t)
    requires Enabled(p, s, Receive(from, m, address, stale))
    ensures Handle(p, rng, s.game, from, m, address, stale).Running?
    ensures GoesOn(p, s, Record(s, from, m, Handle(p, rng, s.game, from, m, address, stale).game), t, slot)
  {
    hide Handle, Record, Append, GoesOn;
    HandleLog(p, rng, s, from, m, address, stale);
    ActionFrame(p, rng, s.game, from, m, address, stale);
    var s' := Record(s, from, m, Handle(p, rng, s.game, from, m, address, stale).game);
    if Effective(p, s.game, from, m, stale) {
      var e := ActionEvent(s.game, from, m, stale);
      PastOfAppend(s.game.turns, [e]);
      AppendEvents(s.game.turns, e);
    }
    Silence(p, s, s', t, slot);
  }

  /** The finished turn takes the place of what was heard of it. */
  lemma FullTurnHeard(p: Params, s: Server, t: Talk, info: TurnInfo)
    requires s.game.started && s.control.Polling? && InTouch(s, t)
    requires info.turn == |Past(s)| && LastEvents(s.game) <= info.events
    ensures Listen(p, t, Turn(info)) == Some(Playing(s.game.players, Past(s) + [info]))
  {
  }

  lemma CaughtUp(s: Server)
    requires s.game.started && !s.control.Polling? && s.game.turns != []
    ensures InTouch(s, Playing(s.game.players, s.game.turns))
  {
  }

  lemma CloseInTouch(p: Params, rng: Rng, s: Server, r: Game, t: Talk, slot: nat)
    requires Inv(p, s) && s.game.started && s.control.Polling? && InTouch(s, t)
    requires s.game.toDestroy <= s.game.scores.Keys && r == CloseTurn(p, rng, s.game)
    ensures GoesOn(p, s, s.(game := r, control := Closed), t, slot)
  {
    hide CloseTurn, Moves, Append, GoesOn, Listen, InTouch, PlayersInv, AllOnBoard;
    var s', n := s.(game := r, control := Closed), s.game.turn;
    var moves := Moves(p, rng, Sorted8(s.game.toDestroy), s.game.draws);
    CloseTurnLog(p, rng, s.game, r);
    PastOfAppend(s.game.turns, moves);
    AppendedTurn(s.game.turns, moves);
    assert Past(s) == s.game.turns[..n] && r.turns == Past(s) + [r.turns[n]];
    FullTurnHeard(p, s, t, r.turns[n]);
    CaughtUp(s');
    OneTold(p, s, s', Turn(r.turns[n]), t, slot);
  }

  lemma AppendedTurn(turns: seq<TurnInfo>, extra: seq<Event>)
    requires turns != []
    ensures var n := |turns| - 1;
            && |Append(turns, extra)| == |turns|
            && Append(turns, extra)[n].turn == turns[n].turn && turns[n].events <= Append(turns, extra)[n].events
  {
  }

  lemma NextInTouch(p: Params, rng: Rng, s: Server, step: Step, s': Server, t: Talk, slot: nat)
    requires Everything(p, s) && Enabled(p, s, step) && Next(p, rng, s, step) == Alive(s')
    requires InTouch(s, t) || (step.AcceptClient? && slot == GREETED_SLOT)
    ensures GoesOn(p, s, s', t, slot)
  {
    hide BeginTurn, CloseTurn, Handle, Record, Greeting, GoesOn, LifeInv, TalkInv, Mirrored, PlayersInv, PastTurns,
         CurrentTurn, DrawInv;
    match step
    case StartRound =>
      if s.game.started {
        BeginTurnLog(p, s.game, s'.game);
        assert s'.game.turns[..|s.game.turns|] == s.game.turns;
      }
      Silence(p, s, s', t, slot);
    case AcceptClient => GreetInTouch(p, s, s', t, slot);
    case Receive(from, m, address, stale) =>
      if s.game.started {
        ActionInTouch(p, rng, s, from, m, address, stale, t, slot);
      } else {
        JoinInTouch(p, rng, s, from, m, address, stale, t, slot);
      }
    case EndRound =>
      if s.game.started {
        CloseInTouch(p, rng, s, s'.game, t, slot);
      } else {
        Silence(p, s, s', t, slot);
      }
    case Continue =>
      if s'.game.started {
        Silence(p, s, s', t, slot);
      } else {
        ScoresAreKeyed(p, s);
        OneTold(p, s, s', GameEnded(s.game.scores), t, slot);
      }
  }

  lemma ScoresAreKeyed(p: Params, s: Server)
    requires PlayersInv(p, s.game)
    ensures s.game.scores.Keys == s.game.players.Keys
  {
  }

  // ---------- every run ----------

  lemma {:induction false} StaysInTouch(p: Params, rng: Rng, s: Server, steps: seq<Step>, s': Server, t: Talk,
      slot: nat)
    requires p.Valid() && Everything(p, s) && Leads(p, rng, s, steps, s') && InTouch(s, t)
    ensures GoesOn(p, s, s', t, slot)
    decreases |steps|
  {
    hide Everything, Enabled, Next, InTouch, ListenAll, News, Shaped;
    if steps == [] {
      Silence(p, s, s', t, slot);
    } else {
      var s1 := Next(p, rng, s, steps[0]).server;
      EverythingNext(p, rng, s, steps[0]);
      NextInTouch(p, rng, s, steps[0], s1, t, slot);
      OutGrowsOnce(p, rng, s, steps[0]);
      OutGrows(p, rng, s1, steps[1..], s');
      NewsConcat(s, s1, s', slot);
      var u := ListenAll(p, t, News(s, s1, slot)).value;
      StaysInTouch(p, rng, s1, steps[1..], s', u, slot);
      ListenConcat(p, t, News(s, s1, slot), News(s1, s', slot));
    }
  }

  /** Whatever a listener in the greeted slot knew when a greeting came, from then on nothing it is told
      is out of order, and after every finished turn it has the server's players and the whole log, in a
      lobby exactly who has joined. */
  lemma GreetedHearsEverything(p: Params, rng: Rng, s: Server, steps: seq<Step>, s': Server, t: Talk)
    requires p.Valid() && Reachable(p, rng, s) && Enabled(p, s, AcceptClient)
    requires Leads(p, rng, s, [AcceptClient] + steps, s') && !s'.control.Polling?
    ensures s'.game.started ==> s'.game.turns != []
    ensures ListenAll(p, t, News(s, s', GREETED_SLOT)) ==
            Some(if s'.game.started then Playing(s'.game.players, s'.game.turns) else Lobby(s'.game.players))
  {
    hide Everything, Enabled, Next, ListenAll, News, Reachable;
    EverythingHolds(p, rng, s);
    var all := [AcceptClient] + steps;
    assert all[0] == AcceptClient && all[1..] == steps;
    var s1 := Next(p, rng, s, AcceptClient).server;
    EverythingNext(p, rng, s, AcceptClient);
    NextInTouch(p, rng, s, AcceptClient, s1, t, GREETED_SLOT);
    OutGrowsOnce(p, rng, s, AcceptClient);
    OutGrows(p, rng, s1, steps, s');
    NewsConcat(s, s1, s', GREETED_SLOT);
    var u := ListenAll(p, t, News(s, s1, GREETED_SLOT)).value;
    StaysInTouch(p, rng, s1, steps, s', u, GREETED_SLOT);
    ListenConcat(p, t, News(s, s1, GREETED_SLOT), News(s1, s', GREETED_SLOT));
  }

  /** And so has a listener in any slot that is there from the start of the server. */
  lemma FirstComersHearEverything(p: Params, rng: Rng, steps: seq<Step>, s: Server, slot: nat)
    requires p.Valid() && Leads(p, rng, INITIAL_SERVER, steps, s) && !s.control.Polling?
    ensures s.game.started ==> s.game.turns != []
    ensures ListenAll(p, Lobby(map[]), News(INITIAL_SERVER, s, slot)) ==
            Some(if s.game.started then Playing(s.game.players, s.game.turns) else Lobby(s.game.players))
  {
    hide Everything, ListenAll, News, Leads;
    EverythingInitially(p);
    StaysInTouch(p, rng, INITIAL_SERVER, steps, s, Lobby(map[]), slot);
  }
}
