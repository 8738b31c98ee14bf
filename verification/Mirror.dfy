/** Exactly when the client as written gets through what the server sends it, for any client, any slot
    and any run, and what it then holds. It learns the players from the messages and dies at the first
    turn that hits one it has no score for. */
module Mirror {
  import opened Types
  import opened Ordered
  import opened Blast
  import opened GameSpec
  import opened Invariant
  import opened TurnLog
  import opened Replay
  import opened BombLife
  import opened Grammar
  import opened Scoring
  import opened Protocol
  import opened Runs
  import opened Replica

  // ---------- single messages ----------

  lemma HearsOne(c: Client, m: ServerMessage, slot: nat)
    ensures HearsAll(c, Stream([ToAll(m)], slot)) == Hears(c, m)
  {
    assert [ToAll(m)][..0] == [];
    assert [] + [m] == [m] && [m][..0] == [];
    assert HearsAll(c, []) == Some(c);
  }

  lemma NothingHeard(c: Client)
    ensures HearsAll(c, []) == Some(c)
  {
  }

  lemma TwoMessages(s: Server, s': Server, x: ServerMessage, y: ServerMessage, c: Client, slot: nat)
    requires s'.game.out == s.game.out + [ToAll(x)] + [ToAll(y)] && Hears(c, x).Some?
    ensures HearsAll(c, News(s, s', slot)) == Hears(Hears(c, x).value, y)
  {
    hide Stream, HearsAll, News, Hears;
    assert s'.game.out == s.game.out + ([ToAll(x)] + [ToAll(y)]);
    NewsIs(s, s', [ToAll(x)] + [ToAll(y)], slot);
    StreamConcat([ToAll(x)], [ToAll(y)], slot);
    HearsOne(c, x, slot);
    HearsConcat(c, Stream([ToAll(x)], slot), Stream([ToAll(y)], slot));
    HearsOne(Hears(c, x).value, y, slot);
  }

  // ---------- greetings ----------

  lemma NothingSent(slot: nat)
    ensures Stream([], slot) == []
  {
  }

  lemma HearsOneSlot(c: Client, m: ServerMessage, slot: nat)
    ensures HearsAll(c, Stream([ToSlot(slot, m)], slot)) == Hears(c, m)
  {
    assert [ToSlot(slot, m)][..0] == [];
    assert [] + [m] == [m] && [m][..0] == [];
    assert HearsAll(c, []) == Some(c);
  }

  /** Exactly these players' entries. */
  ghost predicate Knows(known: map<u8, Player>, players: map<u8, Player>, ids: seq<u8>) {
    (forall q :: q in known <==> q in ids) && (forall q :: q in known ==> q in players && known[q] == players[q])
  }

  lemma KnowsOneMore(known: map<u8, Player>, players: map<u8, Player>, ids: seq<u8>)
    requires ids != [] && ids[|ids| - 1] in players && Ascending(ids) && Knows(known, players, ids[..|ids| - 1])
    ensures Knows(Insert(known, ids[|ids| - 1], players[ids[|ids| - 1]]), players, ids)
  {
    var n := |ids| - 1;
    assert ids[n] !in ids[..n];
    assert forall q :: q in ids <==> q in ids[..n] || q == ids[n];
  }

  lemma SendAcceptedSplit(players: map<u8, Player>, slot: nat, ids: seq<u8>)
    requires ids != [] && forall i :: 0 <= i < |ids| ==> ids[i] in players
    ensures var n := |ids| - 1;
            SendAccepted(players, slot, ids) ==
            SendAccepted(players, slot, ids[..n]) + [ToSlot(slot, AcceptedPlayer(ids[n], players[ids[n]]))]
  {
  }

  lemma KnowsNobody(c: Client, players: map<u8, Player>, slot: nat)
    requires c.lobby.players == map[]
    ensures HearsAll(c, Stream(SendAccepted(players, slot, []), slot)) == Some(c) && Knows(map[], players, [])
  {
    NothingHeard(c);
    NothingSent(slot);
  }

  lemma {:induction false} HearsAccepted(c: Client, players: map<u8, Player>, slot: nat, ids: seq<u8>)
    requires forall i :: 0 <= i < |ids| ==> ids[i] in players
    requires c.lobby.players == map[] && Ascending(ids)
    ensures var d := HearsAll(c, Stream(SendAccepted(players, slot, ids), slot));
            && d.Some? && d.value == c.(lobby := c.lobby.(players := d.value.lobby.players))
            && Knows(d.value.lobby.players, players, ids)
  {
    hide Stream, HearsAll, SendAccepted, Knows, Insert;
    if ids == [] {
      KnowsNobody(c, players, slot);
    } else {
      var n := |ids| - 1;
      HearsAccepted(c, players, slot, ids[..n]);
      var a, b := SendAccepted(players, slot, ids[..n]), [ToSlot(slot, AcceptedPlayer(ids[n], players[ids[n]]))];
      SendAcceptedSplit(players, slot, ids);
      StreamConcat(a, b, slot);
      HearsConcat(c, Stream(a, slot), Stream(b, slot));
      var d := HearsAll(c, Stream(a, slot)).value;
      HearsOneSlot(d, AcceptedPlayer(ids[n], players[ids[n]]), slot);
      KnowsOneMore(d.lobby.players, players, ids);
    }
  }

  /** A client greeted in the lobby, whatever it held before, then knows the server's parameters and
      exactly the players who have joined. */
  lemma GreetedInLobby(p: Params, g: Game, c: Client, slot: nat)
    requires !g.started
    ensures HearsAll(c, Stream(Greeting(p, g, slot), slot)) ==
            Some(Client(LobbyInfo(p.serverName, p.playersCount, p.sizeX, p.sizeY, p.gameLength, p.explosionRadius,
                                  p.bombTimer, g.players), c.info, true))
  {
    hide Stream, HearsAll, SendAccepted, Sorted;
    var ids := Sorted8(g.players.Keys);
    var a, b := [ToSlot(slot, HelloMessage(p))], SendAccepted(g.players, slot, ids);
    StreamConcat(a, b, slot);
    HearsOneSlot(c, HelloMessage(p), slot);
    HearsConcat(c, Stream(a, slot), Stream(b, slot));
    var d := Hears(c, HelloMessage(p)).value;
    HearsAccepted(d, g.players, slot, ids);
    assert HearsAll(d, Stream(b, slot)).value.lobby.players == g.players;
  }

  lemma SendTurnsSplit(slot: nat, turns: seq<TurnInfo>)
    requires turns != []
    ensures SendTurns(slot, turns) == SendTurns(slot, turns[..|turns| - 1]) + [ToSlot(slot, Turn(turns[|turns| - 1]))]
  {
  }

  lemma {:induction false} HearsPrefix(c: Client, a: seq<ServerMessage>, b: seq<ServerMessage>)
    requires HearsAll(c, a).None?
    ensures HearsAll(c, a + b).None?
  {
    if b == [] {
      assert a + b == a;
    } else {
      LastOfConcat(a, b);
      HearsPrefix(c, a, b[..|b| - 1]);
    }
  }

  /** No explosion in the log hit a robot. */
  ghost predicate NobodyHit(turns: seq<TurnInfo>) {
    forall t :: 0 <= t < |turns| ==> Hit(turns[t].events) == {}
  }

  lemma NobodyHitLast(turns: seq<TurnInfo>)
    requires turns != []
    ensures NobodyHit(turns) <==> NobodyHit(turns[..|turns| - 1]) && Hit(turns[|turns| - 1].events) == {}
  {
    var n := |turns| - 1;
    assert forall t :: 0 <= t < n ==> turns[..n][t] == turns[t];
  }

  /** What a turn leaves alone, and what it sets. */
  ghost predicate AfterTurn(d: Client, t: TurnInfo, e: Client) {
    && e.lobby == d.lobby && e.inLobby == d.inLobby
    && Untouched(d.info.(turn := t.turn, explosions := {}), e.info) && (Timed(d.info) ==> Timed(e.info))
  }

  /** A client without scores takes a turn exactly when it hits nobody. */
  lemma ScorelessTurn(d: Client, w: World, t: TurnInfo)
    requires SameBoard(d.info, w) && d.info.scores == map[]
    ensures Hears(d, Turn(t)).Some? <==> Hit(t.events) == {}
    ensures Hears(d, Turn(t)).Some? ==>
              var e := Hears(d, Turn(t)).value;
              && SameBoard(e.info, Apply(w, t.events)) && e.info.scores == map[]
              && e.info.positions == ShowAll(d.info.positions, t.events) && AfterTurn(d, t, e)
  {
    hide Hit, Apply, ApplyAllToInfo;
    TurnApplies(d.info.(turn := t.turn, explosions := {}), w, t.events);
  }

  /** The same of any number of turns. */
  ghost predicate AfterTurns(c: Client, d: Client) {
    && d.lobby == c.lobby && d.inLobby == c.inLobby
    && Untouched(c.info.(turn := d.info.turn, explosions := d.info.explosions), d.info)
    && (c.info.explosions == {} ==> d.info.explosions == {}) && (Timed(c.info) ==> Timed(d.info))
  }

  lemma {:induction false} HearsTurns(c: Client, w: World, slot: nat, turns: seq<TurnInfo>)
    requires SameBoard(c.info, w) && c.info.scores == map[] && c.info.positions == map[]
    ensures HearsAll(c, Stream(SendTurns(slot, turns), slot)).Some? <==> NobodyHit(turns)
    ensures NobodyHit(turns) ==>
              var d := HearsAll(c, Stream(SendTurns(slot, turns), slot)).value;
              && SameBoard(d.info, ApplyTurns(w, turns)) && d.info.scores == map[]
              && d.info.positions == ShowTurns(turns) && AfterTurns(c, d)
  {
    if turns == [] {
      NothingHeard(c);
      NothingSent(slot);
    } else {
      hide Hit, Apply, NobodyHit, Stream, HearsAll, SendTurns, SameBoard, Hears, ShowAll;
      var n := |turns| - 1;
      HearsTurns(c, w, slot, turns[..n]);
      NobodyHitLast(turns);
      var a, b := SendTurns(slot, turns[..n]), [ToSlot(slot, Turn(turns[n]))];
      SendTurnsSplit(slot, turns);
      StreamConcat(a, b, slot);
      if NobodyHit(turns[..n]) {
        var d := HearsAll(c, Stream(a, slot)).value;
        HearsConcat(c, Stream(a, slot), Stream(b, slot));
        HearsOneSlot(d, Turn(turns[n]), slot);
        ScorelessTurn(d, ApplyTurns(w, turns[..n]), turns[n]);
      } else {
        HearsPrefix(c, Stream(a, slot), Stream(b, slot));
      }
    }
  }

  /** The shipped client survives a greeting in the middle of a game exactly when no explosion so far
      hit a robot: Hello has emptied its player list, so the game it builds has no scores. If it
      survives it has the world the greeting describes. */
  lemma GreetedMidGame(p: Params, g: Game, c: Client, slot: nat)
    requires g.started
    ensures HearsAll(c, Stream(Greeting(p, g, slot), slot)).Some? <==> NobodyHit(g.turns)
    ensures HearsAll(c, Stream(Greeting(p, g, slot), slot)).Some? ==>
              var d := HearsAll(c, Stream(Greeting(p, g, slot), slot)).value;
              && SameBoard(d.info, ReplayTurns(g.turns)) && d.info.scores == map[]
              && d.info.positions == ShowTurns(g.turns) && d.info.players == map[]
              && LobbyOf(p, d.lobby) && GameOf(p, d.info) && d.lobby.players == map[]
              && !d.inLobby && d.info.explosions == {} && Timed(d.info)
  {
    hide Stream, HearsAll, SendTurns, Hit;
    var x, y, z := [ToSlot(slot, HelloMessage(p))], [ToSlot(slot, GameStarted(g.players))], SendTurns(slot, g.turns);
    assert Greeting(p, g, slot) == x + (y + z);
    StreamConcat(x, y + z, slot);
    StreamConcat(y, z, slot);
    var c1 := Hears(c, HelloMessage(p)).value;
    HearsOneSlot(c, HelloMessage(p), slot);
    HearsConcat(c, Stream(x, slot), Stream(y, slot) + Stream(z, slot));
    HearsOneSlot(c1, GameStarted(g.players), slot);
    HearsConcat(c1, Stream(y, slot), Stream(z, slot));
    var c2 := Hears(c1, GameStarted(g.players)).value;
    assert c2.info.scores == map[] && SameBoard(c2.info, EMPTY_WORLD);
    HearsTurns(c2, EMPTY_WORLD, slot, g.turns);
    ApplyTurnsIsReplay(g.turns);
  }

  // ---------- in terms of the messages ----------

  /** The players a client's lobby lists, and those its game has a score for. */
  datatype Known = Known(players: set<u8>, scored: set<u8>)

  function KnownOf(c: Client): Known { Known(c.lobby.players.Keys, c.info.scores.Keys) }

  /** What a message teaches. */
  function Learn(k: Known, m: ServerMessage): Known {
    match m
    case Hello(_, _, _, _, _, _, _) => k.(players := {})
    case AcceptedPlayer(id, _) => k.(players := k.players + {id})
    case GameStarted(_) => k.(scored := k.players)
    case Turn(_) => k
    case GameEnded(_) => k.(players := {})
  }

  function LearnAll(k: Known, ms: seq<ServerMessage>): Known {
    if ms == [] then k else Learn(LearnAll(k, ms[..|ms| - 1]), ms[|ms| - 1])
  }

  ghost predicate Harmless(k: Known, m: ServerMessage) {
    m.Turn? ==> Hit(m.info.events) <= k.scored
  }

  /** Every turn hits only players scored by what came before it. */
  ghost predicate AllHarmless(k: Known, ms: seq<ServerMessage>) {
    forall i :: 0 <= i < |ms| ==> Harmless(LearnAll(k, ms[..i]), ms[i])
  }

  lemma HearsOneExactly(c: Client, w: World, m: ServerMessage)
    requires SameBoard(c.info, w)
    ensures Hears(c, m).Some? <==> Harmless(KnownOf(c), m)
    ensures Hears(c, m).Some? ==>
              KnownOf(Hears(c, m).value) == Learn(KnownOf(c), m) && SameBoard(Hears(c, m).value.info, Watch(w, m))
  {
    hide Hit, Apply, ApplyAllToInfo;
    if m.Turn? {
      TurnApplies(c.info.(turn := m.info.turn, explosions := {}), w, m.info.events);
    }
  }

  lemma AllHarmlessLast(k: Known, ms: seq<ServerMessage>)
    requires ms != []
    ensures var n := |ms| - 1;
            AllHarmless(k, ms) <==> AllHarmless(k, ms[..n]) && Harmless(LearnAll(k, ms[..n]), ms[n])
  {
    hide Harmless, LearnAll;
    var n := |ms| - 1;
    forall i | 0 <= i < n ensures ms[..n][..i] == ms[..i] && ms[..n][i] == ms[i] {}
  }

  /** A client survives any messages exactly when all of them are harmless to what it has learned, and
      then has learned as they teach and seen the board they describe. */
  lemma {:induction false} HearsExactly(c: Client, w: World, ms: seq<ServerMessage>)
    requires SameBoard(c.info, w)
    ensures HearsAll(c, ms).Some? <==> AllHarmless(KnownOf(c), ms)
    ensures HearsAll(c, ms).Some? ==>
              && KnownOf(HearsAll(c, ms).value) == LearnAll(KnownOf(c), ms)
              && SameBoard(HearsAll(c, ms).value.info, WatchAll(w, ms))
  {
    if ms != [] {
      hide Hears, Watch, Learn, Harmless, AllHarmless, SameBoard, KnownOf;
      var n := |ms| - 1;
      HearsExactly(c, w, ms[..n]);
      AllHarmlessLast(KnownOf(c), ms);
      if HearsAll(c, ms[..n]).Some? {
        HearsOneExactly(HearsAll(c, ms[..n]).value, WatchAll(w, ms[..n]), ms[n]);
      }
    }
  }

  // ---------- in terms of the server's run ----------

  /** The players the client has missed: in the lobby those it does not list, in a game those it has
      no score for. */
  function Missing(s: Server, c: Client): set<u8> {
    s.game.players.Keys - if s.game.started then c.info.scores.Keys else c.lobby.players.Keys
  }

  /** A greeting in the lobby tells it everyone, one in mid-game leaves it without scores, and a game's
      end makes both sides start over. */
  function MissingAfter(s: Server, step: Step, s': Server, missing: set<u8>, slot: nat): set<u8> {
    if step.AcceptClient? && slot == GREETED_SLOT then
      if s.game.started then s.game.players.Keys else {}
    else if s.game.started && !s'.game.started then {}
    else missing
  }

  /** The step sends the slot no turn that hits a player it misses: at the end of a turn the robots
      destroyed are others, and a greeting in mid-game finds that nobody has been hit. */
  ghost predicate Spares(s: Server, step: Step, missing: set<u8>, slot: nat) {
    && (step.EndRound? && s.game.started ==> s.game.toDestroy !! missing)
    && (step.AcceptClient? && slot == GREETED_SLOT && s.game.started ==> NobodyHit(s.game.turns))
  }

  ghost predicate RunSpares(p: Params, rng: Rng, s: Server, steps: seq<Step>, s': Server, missing: set<u8>, slot: nat)
    requires p.Valid() && Leads(p, rng, s, steps, s')
    decreases |steps|
  {
    steps != [] ==>
      var s1 := Next(p, rng, s, steps[0]).server;
      && Spares(s, steps[0], missing, slot)
      && RunSpares(p, rng, s1, steps[1..], s', MissingAfter(s, steps[0], s1, missing, slot), slot)
  }

  /** The players it misses after the run, if it survives. */
  ghost function MissingAtEnd(p: Params, rng: Rng, s: Server, steps: seq<Step>, s': Server, missing: set<u8>,
                              slot: nat): set<u8>
    requires p.Valid() && Leads(p, rng, s, steps, s')
    decreases |steps|
  {
    if steps == [] then missing else
      var s1 := Next(p, rng, s, steps[0]).server;
      MissingAtEnd(p, rng, s1, steps[1..], s', MissingAfter(s, steps[0], s1, missing, slot), slot)
  }

  /** Its scores count the explosions of the finished turns. */
  ghost predicate Tallied(s: Server, c: Client) {
    s.game.started ==>
      s.game.turns != [] && forall q :: q in c.info.scores ==> c.info.scores[q] == ExplosionTally(Past(s), q)
  }

  /** It shows the robots where the finished turns, as it takes them, put them. */
  ghost predicate Shows(s: Server, c: Client) {
    s.game.started ==> s.game.turns != [] && c.info.positions == ShowTurns(Past(s))
  }

  /** In a game it is out of the lobby, is at the last finished turn, shows no explosions, and gives every
      bomb the whole timer. */
  ghost predicate Current(s: Server, c: Client) {
    s.game.started ==>
      !c.inLobby && c.info.explosions == {} && Timed(c.info) && (!s.control.Polling? ==> c.info.turn == s.game.turn)
  }

  predicate LobbyOf(p: Params, l: LobbyInfo) {
    l.serverName == p.serverName && l.playersCount == p.playersCount && l.sizeX == p.sizeX && l.sizeY == p.sizeY &&
    l.gameLength == p.gameLength && l.explosionRadius == p.explosionRadius && l.bombTimer == p.bombTimer
  }

  predicate GameOf(p: Params, i: GameInfo) {
    i.serverName == p.serverName && i.sizeX == p.sizeX && i.sizeY == p.sizeY && i.gameLength == p.gameLength &&
    i.bombTimer == p.bombTimer
  }

  /** It has the server's parameters. */
  ghost predicate Headed(p: Params, s: Server, c: Client) {
    LobbyOf(p, c.lobby) && (s.game.started ==> GameOf(p, c.info))
  }

  /** Whom it knows it knows by the server's name and address, and in a game it counts exactly them. */
  ghost predicate Acquainted(s: Server, c: Client) {
    var known := if s.game.started then c.info.players else c.lobby.players;
    && (forall q :: q in known ==> q in s.game.players && known[q] == s.game.players[q])
    && (s.game.started ==> known.Keys == c.info.scores.Keys)
  }

  /** It is in its lobby exactly when the server is. */
  predicate InPhase(s: Server, c: Client) { c.inLobby <==> !s.game.started }

  ghost predicate StaysTrue(p: Params, s: Server, c: Client, s': Server, d: Client) {
    && (Current(s, c) ==> Current(s', d))
    && (Headed(p, s, c) ==> Headed(p, s', d))
    && (Acquainted(s, c) ==> Acquainted(s', d))
    && (InPhase(s, c) ==> InPhase(s', d))
  }

  /** It knows of nobody but the server's players. */
  ghost predicate OnlyPlayers(s: Server, c: Client) {
    (if s.game.started then c.info.scores.Keys else c.lobby.players.Keys) <= s.game.players.Keys
  }

  /** The client gets through the step's messages exactly when the step spares it, and then misses
      what is said above and has its scores and players right if it had before. */
  ghost predicate SparedExactly(p: Params, s: Server, step: Step, s': Server, c: Client, slot: nat) {
    var heard := HearsAll(c, News(s, s', slot));
    && (heard.Some? <==> Spares(s, step, Missing(s, c), slot))
    && (heard.Some? ==>
          && Missing(s', heard.value) == MissingAfter(s, step, s', Missing(s, c), slot)
          && (Tallied(s, c) ==> Tallied(s', heard.value))
          && (OnlyPlayers(s, c) ==> OnlyPlayers(s', heard.value))
          && (Shows(s, c) ==> Shows(s', heard.value))
          && StaysTrue(p, s, c, s', heard.value))
  }

  lemma {:induction false} TallyBelowBlown(turns: seq<TurnInfo>, q: u8)
    ensures ExplosionTally(turns, q) <= Blown(turns)
  {
    if turns != [] {
      TallyBelowBlown(turns[..|turns| - 1], q);
      ListsBelowBlasts(turns[|turns| - 1].events, q);
    }
  }

  lemma {:induction false} ListsBelowBlasts(events: seq<Event>, q: u8)
    ensures Count(events, Lists(q)) <= Count(events, IS_BLAST)
  {
    if events != [] { ListsBelowBlasts(events[..|events| - 1], q); }
  }

  lemma TallyAppend(turns: seq<TurnInfo>, t: TurnInfo, q: u8)
    ensures ExplosionTally(turns + [t], q) == ExplosionTally(turns, q) + Count(t.events, Lists(q))
  {
    assert (turns + [t])[..|turns + [t]| - 1] == turns;
  }

  /** What closing a turn does to the log and the messages. */
  lemma ClosedLog(p: Params, rng: Rng, g: Game, r: Game)
    requires p.Valid() && g.started && Shaped(g) && g.toDestroy <= g.scores.Keys && r == CloseTurn(p, rng, g)
    ensures r.started && |r.turns| == |g.turns| && r.turn == g.turn && r.players == g.players
            && r.scores.Keys == g.scores.Keys
    ensures r.turns == g.turns[..g.turn] + [r.turns[g.turn]]
    ensures Hit(r.turns[g.turn].events) == Hit(g.turns[g.turn].events) && r.turns[g.turn].turn == g.turns[g.turn].turn
    ensures r.out == g.out + [ToAll(Turn(r.turns[g.turn]))]
  {
    hide CloseTurn, Moves, Hit, Append;
    CloseTurnLog(p, rng, g, r);
    var moves := Moves(p, rng, Sorted8(g.toDestroy), g.draws);
    HitQuiet(g.turns[g.turn].events, moves);
    PastOfAppend(g.turns, moves);
    LastOfAppend(g.turns, moves);
  }

  lemma LastOfAppend(turns: seq<TurnInfo>, extra: seq<Event>)
    requires turns != []
    ensures |Append(turns, extra)| == |turns|
    ensures Append(turns, extra)[|turns| - 1] == TurnInfo(turns[|turns| - 1].turn, turns[|turns| - 1].events + extra)
  {
  }

  lemma QuietSpares(p: Params, s: Server, step: Step, s': Server, c: Client, slot: nat)
    requires s'.game.out == s.game.out && s'.game.players == s.game.players && s'.game.started == s.game.started
    requires s.game.started ==> s.game.turns != [] && s'.game.turns != [] && Past(s') == Past(s)
    requires s.game.started && !s'.control.Polling? ==> !s.control.Polling? && s'.game.turn == s.game.turn
    requires !(step.EndRound? && s.game.started) && !(step.AcceptClient? && slot == GREETED_SLOT)
    ensures SparedExactly(p, s, step, s', c, slot)
  {
    NewsIs(s, s', [], slot);
    assert s.game.out + [] == s.game.out;
    NothingSent(slot);
    NothingHeard(c);
  }

  lemma OneNews(s: Server, s': Server, m: ServerMessage, c: Client, slot: nat)
    requires s'.game.out == s.game.out + [ToAll(m)]
    ensures HearsAll(c, News(s, s', slot)) == Hears(c, m)
  {
    hide Hears, Stream, HearsAll, News;
    NewsIs(s, s', [ToAll(m)], slot);
    HearsOne(c, m, slot);
  }

  lemma GreetSpares(p: Params, s: Server, s': Server, c: Client, slot: nat)
    requires s.control.Polling? && s' == s.(game := Greet(p, s.game, GREETED_SLOT), control := Polling(1))
    requires s.game.started ==> s.game.turns != [] && AllExplosions(s.game.turns[|s.game.turns| - 1].events)
    ensures SparedExactly(p, s, AcceptClient, s', c, slot)
  {
    hide Stream, HearsAll, Greeting, News, NobodyHit, SameBoard, ShowTurns;
    if slot == GREETED_SLOT {
      NewsIs(s, s', Greeting(p, s.game, slot), slot);
      if s.game.started {
        GreetedMidGame(p, s.game, c, slot);
        if NobodyHit(s.game.turns) { NothingLost(s.game.turns); }
      } else {
        GreetedInLobby(p, s.game, c, slot);
      }
    } else {
      GreetingMissesOtherSlots(p, s, s', slot);
      NothingHeard(c);
    }
  }

  /** Explosions that hit nobody move nobody. */
  lemma {:induction false} HitsNobody(at: map<u8, Position>, events: seq<Event>)
    requires AllExplosions(events) && Hit(events) == {}
    ensures ShowAll(at, events) == at
  {
    if events != [] {
      HitLast(events);
      HitsNobody(at, events[..|events| - 1]);
      assert at - {} == at;
    }
  }

  lemma NothingLost(turns: seq<TurnInfo>)
    requires turns != [] && NobodyHit(turns) && AllExplosions(turns[|turns| - 1].events)
    ensures ShowTurns(turns) == ShowTurns(turns[..|turns| - 1])
  {
    HitsNobody(ShowTurns(turns[..|turns| - 1]), turns[|turns| - 1].events);
  }

  lemma TurnHeard(c: Client, past: seq<TurnInfo>, t: TurnInfo)
    requires forall q :: ExplosionTally(past + [t], q) < 0x1_0000_0000
    ensures Hears(c, Turn(t)).Some? <==> Hit(t.events) <= c.info.scores.Keys
    ensures Hears(c, Turn(t)).Some? ==>
              var d := Hears(c, Turn(t)).value;
              && AfterTurn(c, t, d) && d.info.scores.Keys == c.info.scores.Keys
              && d.info.positions == ShowAll(c.info.positions, t.events)
              && forall q :: q in c.info.scores && c.info.scores[q] == ExplosionTally(past, q) ==>
                   d.info.scores[q] == ExplosionTally(past + [t], q)
  {
    hide Hit, Apply, ApplyAllToInfo, SameBoard, ExplosionTally;
    var i := c.info.(turn := t.turn, explosions := {});
    OwnBoard(i, map[]);
    TurnApplies(i, World(map[], i.blocks, Cells(i.bombs)), t.events);
    forall q ensures ExplosionTally(past + [t], q) == ExplosionTally(past, q) + Count(t.events, Lists(q)) {
      TallyAppend(past, t, q);
    }
  }

  /** Any replica shows some board. */
  lemma OwnBoard(i: GameInfo, positions: map<u8, Position>)
    ensures SameBoard(i, World(positions, i.blocks, Cells(i.bombs)))
  {
  }

  lemma OneMoreShown(past: seq<TurnInfo>, t: TurnInfo)
    ensures ShowTurns(past + [t]) == ShowAll(ShowTurns(past), t.events)
  {
    assert (past + [t])[..|past + [t]| - 1] == past;
  }

  lemma CloseSpares(p: Params, rng: Rng, s: Server, r: Game, c: Client, slot: nat)
    requires s.game.started && s.control.Polling? && Shaped(s.game) && Conserved(r)
    requires p.Valid() && s.game.toDestroy <= s.game.scores.Keys && r == CloseTurn(p, rng, s.game)
    requires s.game.turns[s.game.turn].turn == s.game.turn
    requires s.game.toDestroy == Hit(s.game.turns[s.game.turn].events) <= s.game.players.Keys
    ensures SparedExactly(p, s, EndRound, s.(game := r, control := Closed), c, slot)
  {
    hide CloseTurn, Hit, Hears, HearsAll, News, ExplosionTally, Blown, ShowAll, ShowTurns;
    ClosedLog(p, rng, s.game, r);
    assert r.turns == Past(s) + [r.turns[s.game.turn]];
    forall q ensures ExplosionTally(r.turns, q) < 0x1_0000_0000 {
      TallyBelowBlown(r.turns, q);
    }
    OneNews(s, s.(game := r, control := Closed), Turn(r.turns[s.game.turn]), c, slot);
    OneMoreShown(Past(s), r.turns[s.game.turn]);
    TurnHeard(c, Past(s), r.turns[s.game.turn]);
  }

  lemma ContinueSpares(p: Params, rng: Rng, s: Server, s': Server, c: Client, slot: nat)
    requires s.game.started && Shaped(s.game) && s.control.Closed? && p.Valid()
    requires Next(p, rng, s, Continue) == Alive(s')
    ensures SparedExactly(p, s, Continue, s', c, slot)
  {
    hide HearsAll, News;
    if s.game.turn == p.gameLength {
      OneNews(s, s', GameEnded(s.game.scores), c, slot);
    } else {
      QuietSpares(p, s, Continue, s', c, slot);
    }
  }

  /** A joining player becomes known on both sides at once. */
  lemma JoinKeepsMissing(players: map<u8, Player>, known: map<u8, Player>, id: u8, player: Player)
    requires id !in players
    ensures Insert(players, id, player).Keys - Insert(known, id, player).Keys == players.Keys - known.Keys
    ensures known.Keys <= players.Keys ==> Insert(known, id, player).Keys <= Insert(players, id, player).Keys
    ensures (forall q :: q in known ==> q in players && known[q] == players[q]) ==>
              forall q :: q in Insert(known, id, player) ==>
                q in Insert(players, id, player) && Insert(known, id, player)[q] == Insert(players, id, player)[q]
  {
  }

  lemma AcceptedSpares(p: Params, s: Server, step: Step, s': Server, id: u8, player: Player, c: Client, slot: nat)
    requires step.Receive? && !s.game.started && !s'.game.started && id !in s.game.players
    requires s'.game.players == Insert(s.game.players, id, player)
    requires s'.game.out == s.game.out + [ToAll(AcceptedPlayer(id, player))]
    ensures SparedExactly(p, s, step, s', c, slot)
  {
    hide HearsAll, News, Insert;
    JoinKeepsMissing(s.game.players, c.lobby.players, id, player);
    OneNews(s, s', AcceptedPlayer(id, player), c, slot);
  }

  lemma StartSpares(p: Params, s: Server, step: Step, s': Server, id: u8, player: Player, c: Client, slot: nat)
    requires step.Receive? && !s.game.started && s'.game.started && id !in s.game.players
    requires s'.game.players == Insert(s.game.players, id, player)
    requires s'.game.out == s.game.out + [ToAll(AcceptedPlayer(id, player))] + [ToAll(GameStarted(s'.game.players))]
    requires |s'.game.turns| == 1 && s'.control.Polling?
    ensures SparedExactly(p, s, step, s', c, slot)
  {
    hide HearsAll, News, Insert;
    assert Past(s') == [];
    JoinKeepsMissing(s.game.players, c.lobby.players, id, player);
    TwoMessages(s, s', AcceptedPlayer(id, player), GameStarted(s'.game.players), c, slot);
  }

  lemma JoinSpares(p: Params, rng: Rng, s: Server, from: nat, m: ClientMessage, address: seq<u8>, stale: Position,
      c: Client, slot: nat)
    requires Inv(p, s) && !s.game.started && Enabled(p, s, Receive(from, m, address, stale))
    requires Handle(p, rng, s.game, from, m, address, stale).Running?
    ensures SparedExactly(p, s, Receive(from, m, address, stale),
                          Record(s, from, m, Handle(p, rng, s.game, from, m, address, stale).game), c, slot)
  {
    hide StartGameplay, Moves, Walls, SparedExactly, Insert;
    var g, r := s.game, Handle(p, rng, s.game, from, m, address, stale).game;
    var s', step := Record(s, from, m, r), Receive(from, m, address, stale);
    if m.Join? {
      var a, player := Accept(g, from, m.name, address), Player(m.name, address);
      AcceptKeeps(p, g, from, m.name, address);
      assert g.nextPlayer !in g.players;
      if |a.players| == p.playersCount {
        StartGameplayLog(p, rng, a, r);
        StartSpares(p, s, step, s', g.nextPlayer, player, c, slot);
      } else {
        AcceptedSpares(p, s, step, s', g.nextPlayer, player, c, slot);
      }
    } else {
      QuietSpares(p, s, step, s', c, slot);
    }
  }

  lemma ActionSpares(p: Params, rng: Rng, s: Server, from: nat, m: ClientMessage, address: seq<u8>, stale: Position,
      c: Client, slot: nat)
    requires Inv(p, s) && s.game.started && s.acts != [] && Enabled(p, s, Receive(from, m, address, stale))
    ensures Handle(p, rng, s.game, from, m, address, stale).Running?
    ensures SparedExactly(p, s, Receive(from, m, address, stale),
                          Record(s, from, m, Handle(p, rng, s.game, from, m, address, stale).game), c, slot)
  {
    hide Handle, Record, Append, SparedExactly;
    HandleLog(p, rng, s, from, m, address, stale);
    var r := Handle(p, rng, s.game, from, m, address, stale).game;
    ActionFrame(p, rng, s.game, from, m, address, stale);
    if Effective(p, s.game, from, m, stale) {
      PastOfAppend(s.game.turns, [ActionEvent(s.game, from, m, stale)]);
      LastOfAppend(s.game.turns, [ActionEvent(s.game, from, m, stale)]);
    }
    QuietSpares(p, s, Receive(from, m, address, stale), Record(s, from, m, r), c, slot);
  }

  lemma StepSpares(p: Params, rng: Rng, s: Server, step: Step, s': Server, c: Client, slot: nat)
    requires Everything(p, s) && Enabled(p, s, step) && Next(p, rng, s, step) == Alive(s') && Everything(p, s')
    ensures SparedExactly(p, s, step, s', c, slot)
  {
    hide BeginTurn, CloseTurn, Handle, Record, Greeting, SparedExactly, TalkInv, Mirrored, TimersInv, LogInv,
         CapacityInv, Conserved, PastTurns, UnderWay, PlayersInv, DrawInv, Hit;
    match step
    case StartRound =>
      if s.game.started {
        BeginTurnLog(p, s.game, s'.game);
        assert s'.game.turns[..|s.game.turns|] == s.game.turns;
      }
      QuietSpares(p, s, step, s', c, slot);
    case AcceptClient =>
      if s.game.started { OnlyExplosions(p, s); }
      GreetSpares(p, s, s', c, slot);
    case Receive(from, m, address, stale) =>
      if s.game.started {
        ActionSpares(p, rng, s, from, m, address, stale, c, slot);
      } else {
        JoinSpares(p, rng, s, from, m, address, stale, c, slot);
      }
    case EndRound =>
      if s.game.started {
        CloseSpares(p, rng, s, s'.game, c, slot);
      } else {
        QuietSpares(p, s, step, s', c, slot);
      }
    case Continue => ContinueSpares(p, rng, s, s', c, slot);
  }

  /** The same over a whole run. */
  ghost predicate RunSparedExactly(p: Params, rng: Rng, s: Server, steps: seq<Step>, s': Server, c: Client, slot: nat)
    requires p.Valid() && Leads(p, rng, s, steps, s')
  {
    var heard := HearsAll(c, News(s, s', slot));
    && (heard.Some? <==> RunSpares(p, rng, s, steps, s', Missing(s, c), slot))
    && (heard.Some? ==>
          && Missing(s', heard.value) == MissingAtEnd(p, rng, s, steps, s', Missing(s, c), slot)
          && (Tallied(s, c) ==> Tallied(s', heard.value))
          && (OnlyPlayers(s, c) ==> OnlyPlayers(s', heard.value))
          && (Shows(s, c) ==> Shows(s', heard.value))
          && StaysTrue(p, s, c, s', heard.value))
  }

  lemma {:induction false} RunSparesExactly(p: Params, rng: Rng, s: Server, steps: seq<Step>, s': Server, c: Client,
      slot: nat)
    requires p.Valid() && Everything(p, s) && Leads(p, rng, s, steps, s')
    ensures RunSparedExactly(p, rng, s, steps, s', c, slot)
    decreases |steps|
  {
    hide Everything, Enabled, Next, HearsAll, News, Spares, Missing, MissingAfter, Tallied, OnlyPlayers, Shows,
         Current, Headed, Acquainted, InPhase;
    if steps == [] {
      NewsIs(s, s', [], slot);
      assert s.game.out + [] == s.game.out;
      NothingSent(slot);
      NothingHeard(c);
    } else {
      var s1 := Next(p, rng, s, steps[0]).server;
      EverythingNext(p, rng, s, steps[0]);
      StepSpares(p, rng, s, steps[0], s1, c, slot);
      OutGrowsOnce(p, rng, s, steps[0]);
      OutGrows(p, rng, s1, steps[1..], s');
      NewsConcat(s, s1, s', slot);
      if HearsAll(c, News(s, s1, slot)).Some? {
        RunSparesExactly(p, rng, s1, steps[1..], s', HearsAll(c, News(s, s1, slot)).value, slot);
        HearsConcat(c, News(s, s1, slot), News(s1, s', slot));
      } else {
        HearsPrefix(c, News(s, s1, slot), News(s1, s', slot));
      }
    }
  }

  // ---------- main results ----------

  /** Whatever the client as written held, in whichever slot, through any run: it survives if and only
      if the run destroys no player it misses, equivalently if and only if every message is harmless
      to what it has learned. */
  lemma ClientSurvivesExactly(p: Params, rng: Rng, s: Server, steps: seq<Step>, s': Server, c: Client, slot: nat)
    requires p.Valid() && Reachable(p, rng, s) && Leads(p, rng, s, steps, s')
    ensures HearsAll(c, News(s, s', slot)).Some? <==> RunSpares(p, rng, s, steps, s', Missing(s, c), slot)
    ensures HearsAll(c, News(s, s', slot)).Some? <==> AllHarmless(KnownOf(c), News(s, s', slot))
  {
    hide Everything, HearsAll, News, Leads, Reachable, RunSpares, Missing, SameBoard, AllHarmless, WatchAll;
    EverythingHolds(p, rng, s);
    RunSparesExactly(p, rng, s, steps, s', c, slot);
    OwnBoard(c.info, map[]);
    HearsExactly(c, World(map[], c.info.blocks, Cells(c.info.bombs)), News(s, s', slot));
  }

  /** From any lobby on, a client that survives has the server's blocks and bombs after every finished
      turn, and scores that count explosions and are never below the server's. */
  lemma SurvivorMirrors(p: Params, rng: Rng, s: Server, steps: seq<Step>, s': Server, c: Client, slot: nat)
    requires p.Valid() && Reachable(p, rng, s) && Leads(p, rng, s, steps, s') && !s.game.started
    requires HearsAll(c, News(s, s', slot)).Some? && s'.game.started && !s'.control.Polling?
    ensures var d := HearsAll(c, News(s, s', slot)).value;
            && d.info.blocks == s'.game.blocks && Cells(d.info.bombs) == Cells(s'.game.bombs)
            && s'.game.scores.Keys - d.info.scores.Keys == MissingAtEnd(p, rng, s, steps, s', Missing(s, c), slot)
            && (c.lobby.players.Keys <= s.game.players.Keys ==> d.info.scores.Keys <= s'.game.scores.Keys)
            && (forall q :: q in d.info.scores ==> d.info.scores[q] == ExplosionTally(s'.game.turns, q))
            && (forall q :: q in d.info.scores && q in s'.game.scores ==> s'.game.scores[q] <= d.info.scores[q])
  {
    hide HearsAll, News, Leads, Reachable, RunSpares, WatchAll, AllHarmless, ExplosionTally, HitTurns,
         TalkInv, LifeInv, GrammarInv, Mirrored;
    EverythingHolds(p, rng, s);
    EverythingLeads(p, rng, s, steps, s');
    RunSparesExactly(p, rng, s, steps, s', c, slot);
    OwnBoard(c.info, map[]);
    HearsExactly(c, World(map[], c.info.blocks, Cells(c.info.bombs)), News(s, s', slot));
    ObserversMirror(p, rng, s, steps, s', World(map[], c.info.blocks, Cells(c.info.bombs)), slot);
    forall q | q in s'.game.scores ensures s'.game.scores[q] <= ExplosionTally(s'.game.turns, q) {
      ServerAtMostClient(s'.game.turns, q);
    }
  }

  /** The server's live bombs as a client with this timer should hold them. */
  function BombsWith(bombs: map<u32, Bomb>, timer: u16): map<u32, Bomb> {
    map id | id in bombs :: Bomb(bombs[id].position, timer)
  }

  lemma SameBombs(bombs: map<u32, Bomb>, i: GameInfo)
    requires Timed(i) && Cells(i.bombs) == Cells(bombs)
    ensures i.bombs == BombsWith(bombs, i.bombTimer)
  {
    assert forall id :: id in i.bombs <==> id in Cells(bombs);
    forall id | id in i.bombs ensures id in bombs && i.bombs[id] == Bomb(bombs[id].position, i.bombTimer) {
      assert Cells(i.bombs)[id] == Cells(bombs)[id];
    }
  }

  /** A survivor from any lobby on is out of the lobby in every game, at the last finished turn, with the
      server's bombs, all with the timer it began the game with. If it had the server's parameters and
      knew the players by their names, it has them still. */
  lemma SurvivorIsCurrent(p: Params, rng: Rng, s: Server, steps: seq<Step>, s': Server, c: Client, slot: nat)
    requires p.Valid() && Reachable(p, rng, s) && Leads(p, rng, s, steps, s') && !s.game.started
    requires HearsAll(c, News(s, s', slot)).Some? && s'.game.started && !s'.control.Polling?
    ensures var d := HearsAll(c, News(s, s', slot)).value;
            && !d.inLobby && d.info.turn == s'.game.turn && d.info.explosions == {}
            && d.info.bombs == BombsWith(s'.game.bombs, d.info.bombTimer)
            && (LobbyOf(p, c.lobby) ==> LobbyOf(p, d.lobby) && GameOf(p, d.info))
            && (Acquainted(s, c) ==> Acquainted(s', d))
  {
    hide HearsAll, News, Leads, Reachable, RunSpares, Everything, LobbyOf, GameOf, Acquainted, Cells, Timed;
    EverythingHolds(p, rng, s);
    RunSparesExactly(p, rng, s, steps, s', c, slot);
    SurvivorMirrors(p, rng, s, steps, s', c, slot);
    SameBombs(s'.game.bombs, HearsAll(c, News(s, s', slot)).value.info);
  }

  /** A greeted client, whatever it held and whenever it is greeted, has for as long as it lives the
      server's parameters and knows players only by their names, and is in its lobby exactly when the
      server is. */
  lemma GreetedKnowsTheServer(p: Params, rng: Rng, s: Server, steps: seq<Step>, s': Server, c: Client)
    requires p.Valid() && Reachable(p, rng, s) && Enabled(p, s, AcceptClient)
    requires Leads(p, rng, s, [AcceptClient] + steps, s') && HearsAll(c, News(s, s', GREETED_SLOT)).Some?
    ensures var d := HearsAll(c, News(s, s', GREETED_SLOT)).value;
            Headed(p, s', d) && Acquainted(s', d) && Current(s', d) && InPhase(s', d)
  {
    hide HearsAll, News, Leads, Reachable, RunSpares, Everything, Acquainted, Headed, Current, InPhase, Next, Missing;
    var s1 := AfterGreeting(p, rng, s, steps, s', c);
    RunSparesExactly(p, rng, s1, steps, s', HearsAll(c, News(s, s1, GREETED_SLOT)).value, GREETED_SLOT);
  }

  /** And after every finished turn it has the turn's number, the server's blocks, and exactly the server's
      bombs, each with its cell and the whole timer. */
  lemma GreetedHoldsTheGame(p: Params, rng: Rng, s: Server, steps: seq<Step>, s': Server, c: Client)
    requires p.Valid() && Reachable(p, rng, s) && Enabled(p, s, AcceptClient)
    requires Leads(p, rng, s, [AcceptClient] + steps, s') && s'.game.started && !s'.control.Polling?
    requires HearsAll(c, News(s, s', GREETED_SLOT)).Some?
    ensures var d := HearsAll(c, News(s, s', GREETED_SLOT)).value;
            && GameOf(p, d.info) && d.info.turn == s'.game.turn && d.info.explosions == {}
            && d.info.blocks == s'.game.blocks && d.info.bombs == BombsWith(s'.game.bombs, p.bombTimer)
  {
    hide HearsAll, News, Leads, Reachable, Acquainted, Cells, Timed;
    GreetedKnowsTheServer(p, rng, s, steps, s', c);
    GreetedBoard(p, rng, s, steps, s', c);
    SameBombs(s'.game.bombs, HearsAll(c, News(s, s', GREETED_SLOT)).value.info);
  }

  /** What the greeting itself leaves the client with. */
  lemma AfterGreeting(p: Params, rng: Rng, s: Server, steps: seq<Step>, s': Server, c: Client) returns (s1: Server)
    requires p.Valid() && Reachable(p, rng, s) && Enabled(p, s, AcceptClient)
    requires Leads(p, rng, s, [AcceptClient] + steps, s') && HearsAll(c, News(s, s', GREETED_SLOT)).Some?
    ensures Leads(p, rng, s1, steps, s') && Everything(p, s1)
    ensures HearsAll(c, News(s, s1, GREETED_SLOT)).Some?
    ensures var c1 := HearsAll(c, News(s, s1, GREETED_SLOT)).value;
            && HearsAll(c1, News(s1, s', GREETED_SLOT)) == HearsAll(c, News(s, s', GREETED_SLOT))
            && Headed(p, s1, c1) && Current(s1, c1) && Acquainted(s1, c1) && InPhase(s1, c1)
  {
    hide HearsAll, News, Reachable, RunSpares, Everything, Stream, Greeting, NobodyHit, Timed, SameBoard, Next, Enabled;
    EverythingHolds(p, rng, s);
    var all := [AcceptClient] + steps;
    assert all[0] == AcceptClient && all[1..] == steps;
    s1 := Next(p, rng, s, AcceptClient).server;
    EverythingNext(p, rng, s, AcceptClient);
    OutGrowsOnce(p, rng, s, AcceptClient);
    OutGrows(p, rng, s1, steps, s');
    NewsConcat(s, s1, s', GREETED_SLOT);
    if HearsAll(c, News(s, s1, GREETED_SLOT)).None? {
      HearsPrefix(c, News(s, s1, GREETED_SLOT), News(s1, s', GREETED_SLOT));
    }
    HearsConcat(c, News(s, s1, GREETED_SLOT), News(s1, s', GREETED_SLOT));
    GreetingLeaves(p, rng, s, s1, c);
  }

  lemma GreetingLeaves(p: Params, rng: Rng, s: Server, s1: Server, c: Client)
    requires p.Valid() && Shaped(s.game) && Enabled(p, s, AcceptClient) && Next(p, rng, s, AcceptClient) == Alive(s1)
    requires HearsAll(c, News(s, s1, GREETED_SLOT)).Some?
    ensures var c1 := HearsAll(c, News(s, s1, GREETED_SLOT)).value;
            Headed(p, s1, c1) && Current(s1, c1) && Acquainted(s1, c1) && InPhase(s1, c1)
  {
    hide HearsAll, News, Stream, Greeting, NobodyHit, Timed, SameBoard;
    NewsIs(s, s1, Greeting(p, s.game, GREETED_SLOT), GREETED_SLOT);
    if s.game.started {
      GreetedMidGame(p, s.game, c, GREETED_SLOT);
    } else {
      GreetedInLobby(p, s.game, c, GREETED_SLOT);
    }
  }

  lemma GreetedBoard(p: Params, rng: Rng, s: Server, steps: seq<Step>, s': Server, c: Client)
    requires p.Valid() && Reachable(p, rng, s) && Enabled(p, s, AcceptClient)
    requires Leads(p, rng, s, [AcceptClient] + steps, s') && s'.game.started && !s'.control.Polling?
    requires HearsAll(c, News(s, s', GREETED_SLOT)).Some?
    ensures var d := HearsAll(c, News(s, s', GREETED_SLOT)).value;
            d.info.blocks == s'.game.blocks && Cells(d.info.bombs) == Cells(s'.game.bombs)
  {
    hide HearsAll, News, Leads, Reachable, AllHarmless, Cells, WatchAll;
    var w := World(map[], c.info.blocks, Cells(c.info.bombs));
    OwnBoard(c.info, map[]);
    HearsExactly(c, w, News(s, s', GREETED_SLOT));
    if s.game.started {
      LateJoinerMirrors(p, rng, s, steps, s', w);
    } else {
      ObserversMirror(p, rng, s, [AcceptClient] + steps, s', w, GREETED_SLOT);
    }
  }

  /** No greeting reaches the slot in the middle of a game. */
  ghost predicate Undisturbed(p: Params, rng: Rng, s: Server, steps: seq<Step>, s': Server, slot: nat)
    requires p.Valid() && Leads(p, rng, s, steps, s')
    decreases |steps|
  {
    steps != [] ==>
      && !(steps[0].AcceptClient? && slot == GREETED_SLOT && s.game.started)
      && Undisturbed(p, rng, Next(p, rng, s, steps[0]).server, steps[1..], s', slot)
  }

  /** Nothing is missed after a lobby without gaps until a greeting in mid-game. */
  lemma {:induction false} UndisturbedSpares(p: Params, rng: Rng, s: Server, steps: seq<Step>, s': Server, slot: nat)
    requires p.Valid() && Leads(p, rng, s, steps, s') && Undisturbed(p, rng, s, steps, s', slot)
    ensures RunSpares(p, rng, s, steps, s', {}, slot) && MissingAtEnd(p, rng, s, steps, s', {}, slot) == {}
    decreases |steps|
  {
    hide Next, Enabled, NobodyHit;
    if steps != [] {
      UndisturbedSpares(p, rng, Next(p, rng, s, steps[0]).server, steps[1..], s', slot);
    }
  }

  lemma NoneMissing(all: set<u8>, some: set<u8>)
    requires some <= all && all - some == {}
    ensures some == all
  {
    assert forall q :: q in all ==> q !in all - some;
  }

  /** In particular a client that knows everyone who has joined the lobby survives any number of games
      as long as no greeting reaches its slot in mid-game, and then scores exactly the server's
      players. */
  lemma ClientMirrorsServer(p: Params, rng: Rng, s: Server, steps: seq<Step>, s': Server, c: Client, slot: nat)
    requires p.Valid() && Reachable(p, rng, s) && !s.game.started && c.lobby.players.Keys == s.game.players.Keys
    requires Leads(p, rng, s, steps, s') && Undisturbed(p, rng, s, steps, s', slot)
    ensures HearsAll(c, News(s, s', slot)).Some?
    ensures s'.game.started && !s'.control.Polling? ==>
              var d := HearsAll(c, News(s, s', slot)).value;
              && d.info.blocks == s'.game.blocks
              && Cells(d.info.bombs) == Cells(s'.game.bombs)
              && d.info.scores.Keys == s'.game.scores.Keys
              && forall q :: q in d.info.scores ==>
                  s'.game.scores[q] <= d.info.scores[q] == ExplosionTally(s'.game.turns, q)
  {
    hide HearsAll, News, Leads, Reachable, RunSpares, MissingAtEnd, Undisturbed, ExplosionTally, Cells;
    assert Missing(s, c) == {};
    UndisturbedSpares(p, rng, s, steps, s', slot);
    ClientSurvivesExactly(p, rng, s, steps, s', c, slot);
    if s'.game.started && !s'.control.Polling? {
      SurvivorMirrors(p, rng, s, steps, s', c, slot);
      var scored := HearsAll(c, News(s, s', slot)).value.info.scores.Keys;
      assert scored == s'.game.scores.Keys by { NoneMissing(s'.game.scores.Keys, scored); }
    }
  }
}
