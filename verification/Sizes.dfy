/** Everything a reachable server sends fits the length fields, so the bytes sent to a slot read back
    completely. */
module Sizes {
  import opened Types
  import opened Ordered
  import opened Blast
  import opened GameSpec
  import opened Invariant
  import opened TurnLog
  import opened Replay
  import opened BombLife
  import opened Grammar
  import opened Scoring
  import opened Protocol
  import opened Runs
  import opened Wire

  // ---------- what is sent can be encoded ----------

  const OPEN_CAP := 2_000_000
  const TURN_CAP := 2_000_300

  /** Event counts and list lengths stay far below the four-byte lengths. */
  ghost predicate SizeInv(s: Server) {
    && (s.game.started ==> forall t :: 0 <= t < |s.game.turns| ==>
          && |s.game.turns[t].events| <= (if s.control.Polling?
              && t == s.game.turn then OPEN_CAP + s.control.next else TURN_CAP)
          && Encodable(Turn(s.game.turns[t])))
    && (forall i :: 0 <= i < |s.game.out| ==> Sendable(s.game.out[i].message))
  }

  /** Everything but a Hello with a long server name can be encoded. */
  predicate Sendable(m: ServerMessage) { m.Hello? || Encodable(m) }

  lemma FewDistinct(s: seq<u8>)
    requires Distinct(s)
    ensures |s| <= 0x100
  {
    DistinctCard(s);
    BoundedCard(Elems(s), 0x100);
  }

  lemma {:induction false} DistinctCard<T>(s: seq<T>)
    requires Distinct(s)
    ensures |Elems(s)| == |s|
  {
    if s != [] {
      var n := |s| - 1;
      DistinctCard(s[..n]);
      ElemsAppend(s);
      assert s[n] !in Elems(s[..n]);
    }
  }

  lemma OpeningEncodable(p: Params, g: Game, i: nat)
    requires AllOnBoard(p, g) && i < |Opening(p, g)|
    ensures EncodableEvent(Opening(p, g)[i])
  {
    hide Explosion;
    var ids := Sorted32(Dying(g));
    BlastsAt(p, g, ids, i);
    ExplosionLists(p, g.positions, g.blocks, ids[i], g.bombs[ids[i]].position);
    FewDistinct(Opening(p, g)[i].robots);
  }

  lemma BeginSizes(p: Params, s: Server, r: Game)
    requires SizeInv(s) && s.game.started && s.control.Top? && Shaped(s.game) && Settled(s.game)
             && AllOnBoard(p, s.game)
    requires s.game.turn < 0xFFFF && |s.game.bombs| <= 25 * (s.game.turn + 1) && r == BeginTurn(p, s.game)
    ensures r.started && SizeInv(Server(r, Polling(0), s.base, s.born, s.acts + [[]]))
  {
    hide BeginTurn, Opening, AllOnBoard, Dying, TickAll, Hit, Torn, EncodableEvent;
    BeginTurnLog(p, s.game, r);
    DyingLive(s.game);
    SubsetCard(Dying(s.game), s.game.bombs.Keys);
    assert |s.game.bombs| == |s.game.bombs.Keys|;
    forall i | 0 <= i < |Opening(p, s.game)| ensures EncodableEvent(Opening(p, s.game)[i]) {
      OpeningEncodable(p, s.game, i);
    }
  }

  lemma SubsetCard<T>(a: set<T>, b: set<T>)
    requires a <= b
    ensures |a| <= |b|
  {
    assert b == a + (b - a);
  }

  lemma GrowSizes(s: Server, s': Server, extra: seq<Event>)
    requires SizeInv(s) && s.game.started && s.control.Polling? && Shaped(s.game) && s.control.next <= CONN_MAX
    requires s'.game.started && s'.game.turns == Append(s.game.turns, extra)
    requires forall i :: 0 <= i < |extra| ==> EncodableEvent(extra[i])
    requires s'.game.turn == s.game.turn && (s'.control.Polling? ==> s'.control.next <= CONN_MAX)
    requires |s.game.turns[s.game.turn].events| + |extra| <= if s'.control.Polling?
             then OPEN_CAP + s'.control.next else TURN_CAP
    requires forall i :: 0 <= i < |s'.game.out| ==> Sendable(s'.game.out[i].message)
    ensures SizeInv(s')
  {
  }

  lemma CloseSizes(p: Params, rng: Rng, s: Server, r: Game)
    requires SizeInv(s) && s.game.started && s.control.Polling? && Shaped(s.game) && s.control.next <= CONN_MAX
    requires p.Valid() && s.game.toDestroy <= s.game.scores.Keys && r == CloseTurn(p, rng, s.game)
    ensures SizeInv(s.(game := r, control := Closed))
  {
    hide CloseTurn, Moves;
    CloseTurnLog(p, rng, s.game, r);
    BoundedCard(s.game.toDestroy, 0x100);
    var moves := Moves(p, rng, Sorted8(s.game.toDestroy), s.game.draws);
    GrowSizes(s, s.(game := r.(out := s.game.out), control := Closed), moves);
  }

  lemma StartSizes(p: Params, rng: Rng, a: Game, s': Server)
    requires p.Valid() && Idle(a) && s'.game == StartGameplay(p, rng, a) && s'.control.Polling?
    requires forall i :: 0 <= i < |a.out| ==> Sendable(a.out[i].message)
    requires forall q :: q in a.players ==> ShortPlayer(a.players[q])
    ensures SizeInv(s')
  {
    hide StartGameplay, Moves, Walls, Sorted, Draw;
    StartGameplayLog(p, rng, a, s'.game);
    BoundedCard(a.players.Keys, 0x100);
  }

  lemma ActionSizes(p: Params, rng: Rng, s: Server, slot: nat, m: ClientMessage, address: seq<u8>, stale: Position)
    requires Inv(p, s) && SizeInv(s) && s.game.started && s.acts != []
    requires Enabled(p, s, Receive(slot, m, address, stale))
    ensures Handle(p, rng, s.game, slot, m, address, stale).Running?
    ensures SizeInv(Record(s, slot, m, Handle(p, rng, s.game, slot, m, address, stale).game))
  {
    hide Handle, Record, Append;
    HandleLog(p, rng, s, slot, m, address, stale);
    var r := Handle(p, rng, s.game, slot, m, address, stale).game;
    ActionFrame(p, rng, s.game, slot, m, address, stale);
    if Effective(p, s.game, slot, m, stale) {
      GrowSizes(s, Record(s, slot, m, r), [ActionEvent(s.game, slot, m, stale)]);
    }
  }

  lemma ReceiveSizes(p: Params, rng: Rng, s: Server, slot: nat, m: ClientMessage, address: seq<u8>, stale: Position)
    requires Everything(p, s) && SizeInv(s) && Enabled(p, s, Receive(slot, m, address, stale))
    requires Handle(p, rng, s.game, slot, m, address, stale).Running?
    ensures SizeInv(Record(s, slot, m, Handle(p, rng, s.game, slot, m, address, stale).game))
  {
    hide StartGameplay, TalkInv, TallyInv, Mirrored, TimersInv, LogInv, CapacityInv, Conserved, PastTurns, CurrentTurn,
         TrueBlast;
    var g, r := s.game, Handle(p, rng, s.game, slot, m, address, stale).game;
    if g.started {
      ActionSizes(p, rng, s, slot, m, address, stale);
    } else if m.Join? {
      var a := Accept(g, slot, m.name, address);
      AcceptKeeps(p, g, slot, m.name, address);
      if |a.players| == p.playersCount { StartSizes(p, rng, a, Record(s, slot, m, r)); }
    }
  }

  lemma GreetingSendable(p: Params, g: Game)
    requires forall q :: q in g.players ==> ShortPlayer(g.players[q])
    requires g.started ==> forall t :: 0 <= t < |g.turns| ==> Encodable(Turn(g.turns[t]))
    ensures forall i :: 0 <= i < |Greeting(p, g, GREETED_SLOT)| ==> Sendable(Greeting(p, g, GREETED_SLOT)[i].message)
  {
    hide Encodable, EncodableEvent, Sorted, Ascending;
    assert Encodable(GameStarted(g.players)) by { PlayersEncodable(g.players); }
    forall q | q in g.players ensures Encodable(AcceptedPlayer(q, g.players[q])) {
      OnePlayerEncodable(q, g.players[q]);
    }
  }

  lemma PlayersEncodable(players: map<u8, Player>)
    requires forall q :: q in players ==> ShortPlayer(players[q])
    ensures Encodable(GameStarted(players))
  {
  }

  lemma OnePlayerEncodable(q: u8, player: Player)
    requires ShortPlayer(player)
    ensures Encodable(AcceptedPlayer(q, player))
  {
  }

  lemma GreetSizes(p: Params, s: Server)
    requires SizeInv(s) && s.control == Polling(0)
    requires forall q :: q in s.game.players ==> ShortPlayer(s.game.players[q])
    ensures SizeInv(s.(game := Greet(p, s.game, GREETED_SLOT), control := Polling(1)))
  {
    hide Greeting, Encodable, Sendable;
    GreetingSendable(p, s.game);
  }

  lemma SizeNext(p: Params, rng: Rng, s: Server, step: Step)
    requires Everything(p, s) && SizeInv(s) && Enabled(p, s, step) && Next(p, rng, s, step).Alive?
    ensures SizeInv(Next(p, rng, s, step).server)
  {
    hide BeginTurn, CloseTurn, Handle, Record, Greeting, TalkInv, TallyInv, Mirrored, TimersInv, LogInv,
         CapacityInv, Conserved, PastTurns, CurrentTurn;
    match step
    case StartRound =>
      if s.game.started {
        BombCapacity(p, s);
        BeginSizes(p, s, BeginTurn(p, s.game));
      }
    case AcceptClient => GreetSizes(p, s);
    case Receive(slot, m, address, stale) => ReceiveSizes(p, rng, s, slot, m, address, stale);
    case EndRound =>
      if s.game.started { CloseSizes(p, rng, s, CloseTurn(p, rng, s.game)); }
    case Continue =>
  }

  // ---------- whole runs ----------

  lemma {:induction false} SizesLead(p: Params, rng: Rng, s: Server, steps: seq<Step>, s': Server)
    requires p.Valid() && Everything(p, s) && SizeInv(s) && Leads(p, rng, s, steps, s')
    ensures SizeInv(s')
    decreases |steps|
  {
    hide Everything, SizeInv, Enabled, Next;
    if steps != [] {
      EverythingNext(p, rng, s, steps[0]);
      SizeNext(p, rng, s, steps[0]);
      SizesLead(p, rng, Next(p, rng, s, steps[0]).server, steps[1..], s');
    }
  }

  lemma {:induction false} StreamIsSendable(out: seq<Outgoing>, slot: nat)
    requires forall i :: 0 <= i < |out| ==> Sendable(out[i].message)
    ensures forall i :: 0 <= i < |Stream(out, slot)| ==> Sendable(Stream(out, slot)[i])
  {
    hide Sendable;
    if out != [] { StreamIsSendable(out[..|out| - 1], slot); }
  }

  /** No greeting with a name its length byte cannot carry. */
  predicate ShortHellos(ms: seq<ServerMessage>) {
    forall i :: 0 <= i < |ms| && ms[i].Hello? ==> |ms[i].serverName| < 0x100
  }

  lemma NewsIsSendable(p: Params, rng: Rng, s: Server, steps: seq<Step>, s': Server, slot: nat)
    requires p.Valid() && Reachable(p, rng, s) && Leads(p, rng, s, steps, s')
    ensures forall i :: 0 <= i < |News(s, s', slot)| ==> Sendable(News(s, s', slot)[i])
  {
    hide Everything, Sendable, Enabled, Next, Stream;
    var before :| Leads(p, rng, INITIAL_SERVER, before, s);
    EverythingInitially(p);
    SizesLead(p, rng, INITIAL_SERVER, before, s);
    EverythingHolds(p, rng, s);
    SizesLead(p, rng, s, steps, s');
    OutGrows(p, rng, s, steps, s');
    StreamIsSendable(s'.game.out[|s.game.out|..], slot);
  }

  /** What a reachable server has sent to a slot since any point reads back from its bytes, completely,
      if and only if no greeting among it carries a name of 256 bytes or more. */
  lemma SentBytesReadBack(p: Params, rng: Rng, s: Server, steps: seq<Step>, s': Server, slot: nat)
    requires p.Valid() && Reachable(p, rng, s) && Leads(p, rng, s, steps, s')
    ensures var ms := News(s, s', slot);
            ReadMany(ReadMessage, |ms|, Concat(MessageBytes, ms)) == Some((ms, [])) <==> ShortHellos(ms)
  {
    hide ReadMany, Concat, MessageBytes, ReadMessage, News, Leads, Reachable;
    NewsIsSendable(p, rng, s, steps, s', slot);
    StreamTrip(News(s, s', slot));
  }
}
