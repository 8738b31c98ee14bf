/** Rounds in which a single thing happens, for writing down runs of the server's loop: a client
    connects, a connected client sends one message, or nothing happens. */
module Scripts {
  import opened Types
  import opened Blast
  import opened Wire
  import opened GameSpec
  import opened ClientMessages
  import opened TcpHandling
  import opened Runs
  import opened Rounds

  function NoMail(): seq<Option<Read>> { seq(CONN_MAX, i => None) }

  function Silence(): Poll { Poll(false, NoMail()) }

  function Knock(): Poll { Poll(true, NoMail()) }

  function Says(slot: nat, m: ClientMessage): Poll
    requires slot < CONN_MAX
  {
    Poll(false, NoMail()[slot := Some(Read(Data(ClientBytes(m)), [], Position(0, 0)))])
  }

  lemma IsUnderstood(m: ClientMessage)
    requires Short(m)
    ensures Delivered(Data(ClientBytes(m))) == Some(m)
  {
    WholeMessagesAccepted([m]);
    assert Concat(ClientBytes, [m]) == ClientBytes(m) + Concat(ClientBytes, [m][1..]);
    assert ClientBytes(m) + [] == ClientBytes(m);
  }

  lemma {:induction false} EmptyInbox(open: seq<bool>, k: nat)
    requires k <= CONN_MAX && k <= |open|
    ensures Received(NoMail(), open, k) == []
  {
    if k > FIRST_SLOT { EmptyInbox(open, k - 1); }
  }

  lemma {:induction false} OneLetter(slot: nat, m: ClientMessage, open: seq<bool>, k: nat)
    requires FIRST_SLOT <= slot < CONN_MAX && k <= CONN_MAX && k <= |open|
    ensures Received(Says(slot, m).inbox, open, k) ==
            if k <= slot then [] else ReceivedFrom(Says(slot, m).inbox[slot], open[slot], slot)
  {
    hide Delivered, ClientBytes;
    if k > FIRST_SLOT { OneLetter(slot, m, open, k - 1); }
  }

  /** A run of whole rounds: where it starts and with which slots open, and where it has got to. */
  datatype Run = Run(start: Server, table: seq<bool>, polls: seq<Poll>, now: Server, open: seq<bool>)

  ghost predicate Real(p: Params, rng: Rng, r: Run)
    requires p.Valid()
  {
    && AllValid(r.polls) && |r.table| == CONN_MAX && r.open == OpenAfterAll(r.polls, r.table)
    && RoundsLead(p, rng, r.start, r.polls, r.table, r.now)
    && Reachable(p, rng, r.now) && r.now.control.Top?
  }

  lemma NoRounds(p: Params, rng: Rng, s: Server, open: seq<bool>)
    requires p.Valid() && Reachable(p, rng, s) && s.control.Top? && |open| == CONN_MAX
    ensures Real(p, rng, Run(s, open, [], s, open))
  {
  }

  /** What the game is after the head of the loop. */
  function Begun(p: Params, g: Game): Game
    requires Shaped(g) && (g.started ==> g.turn < 0xFFFF)
  {
    if g.started then BeginTurn(p, g) else g
  }

  /** A round that gets to the end of its messages ends, and is one round more. */
  lemma Ends(p: Params, rng: Rng, r: Run, poll: Poll, mid: Server) returns (r': Run)
    requires p.Valid() && Real(p, rng, r) && poll.Valid()
    requires Leads(p, rng, r.now, RoundSteps(poll, r.open), mid) && mid.control.Polling?
    ensures Reachable(p, rng, mid) && Shaped(mid.game)
    ensures mid.game.started ==> mid.game.toDestroy <= mid.game.scores.Keys
    ensures Real(p, rng, r') && r' == Run(r.start, r.table, r.polls + [poll], r'.now, OpenAfter(poll, r.open))
    ensures Leads(p, rng, mid, Ending(mid.game), r'.now)
    ensures r'.now.game.started == mid.game.started ==> r'.now.base == mid.base
    ensures r'.now.game == if !mid.game.started then mid.game else
                             var c := CloseTurn(p, rng, mid.game);
                             if c.turn == p.gameLength then EndGameplay(c) else c
  {
    hide Leads, Reachable, RoundSteps, OpenAfter, Ending, CloseTurn, Poll.Valid;
    StaysReachable(p, rng, r.now, RoundSteps(poll, r.open), mid);
    var s' := EndStep(p, rng, mid);
    StaysReachable(p, rng, mid, Ending(mid.game), s');
    var polls := r.polls + [poll];
    assert polls[..|r.polls|] == r.polls;
    r' := Run(r.start, r.table, polls, s', OpenAfter(poll, r.open));
    assert RoundLeads(p, rng, r.now, poll, r.open, s');
  }

  /** Nothing is sent and nobody comes. */
  lemma Silent(p: Params, rng: Rng, r: Run) returns (mid: Server)
    requires p.Valid() && Real(p, rng, r)
    ensures Silence().Valid() && OpenAfter(Silence(), r.open) == r.open
    ensures Shaped(r.now.game) && (r.now.game.started ==> r.now.game.turn < 0xFFFF)
    ensures Leads(p, rng, r.now, RoundSteps(Silence(), r.open), mid) && mid.control == Polling(0)
    ensures mid.base == r.now.base && mid.game == Begun(p, r.now.game)
  {
    hide Leads, Reachable, BeginTurn, RoundsLead;
    EmptyInbox(r.open, CONN_MAX);
    mid := StartStep(p, rng, r.now);
    assert [StartRound] + [] + [] == [StartRound];
  }

  /** A client connects. */
  lemma Knocks(p: Params, rng: Rng, r: Run) returns (a: Server, mid: Server)
    requires p.Valid() && Real(p, rng, r) && Admits(r.open)
    ensures Knock().Valid() && OpenAfter(Knock(), r.open) == r.open[FirstFree(r.open) := true]
    ensures Shaped(r.now.game) && (r.now.game.started ==> r.now.game.turn < 0xFFFF)
    ensures Leads(p, rng, r.now, [StartRound], a) && Reachable(p, rng, a) && a.game == Begun(p, r.now.game)
    ensures a.control.Polling?
    ensures RoundSteps(Knock(), r.open) == [StartRound, AcceptClient]
    ensures Leads(p, rng, r.now, RoundSteps(Knock(), r.open), mid) && mid.control.Polling?
    ensures mid.base == r.now.base && mid.game == Greet(p, Begun(p, r.now.game), GREETED_SLOT)
  {
    hide Leads, Reachable, BeginTurn, Greet, RoundsLead;
    EmptyInbox(Opened(r.open, true), CONN_MAX);
    a := StartStep(p, rng, r.now);
    mid := GreetStep(p, rng, a);
    LeadsConcat(p, rng, r.now, [StartRound], a, [AcceptClient], mid);
    assert [StartRound] + [AcceptClient] + [] == [StartRound] + [AcceptClient] == [StartRound, AcceptClient];
  }

  /** A connected client sends one message. */
  lemma Speaks(p: Params, rng: Rng, r: Run, slot: nat, m: ClientMessage) returns (a: Server)
    requires p.Valid() && Real(p, rng, r) && FIRST_SLOT <= slot < CONN_MAX && r.open[slot]
    requires Short(m) && |ClientBytes(m)| <= BUF_SIZE
    ensures Says(slot, m).Valid() && OpenAfter(Says(slot, m), r.open) == r.open
    ensures Shaped(r.now.game) && (r.now.game.started ==> r.now.game.turn < 0xFFFF)
    ensures RoundSteps(Says(slot, m), r.open) == [StartRound, Receive(slot, m, [], Position(0, 0))]
    ensures Leads(p, rng, r.now, [StartRound], a) && Reachable(p, rng, a) && a.control == Polling(0)
    ensures a.base == r.now.base && a.game == Begun(p, r.now.game)
  {
    hide Leads, Reachable, BeginTurn, Delivered, ClientBytes, RoundsLead;
    IsUnderstood(m);
    OneLetter(slot, m, r.open, CONN_MAX);
    a := StartStep(p, rng, r.now);
    assert [StartRound] + [] + [Receive(slot, m, [], Position(0, 0))] ==
           [StartRound, Receive(slot, m, [], Position(0, 0))];
  }

  /** And the server handles it. */
  lemma Handled(p: Params, rng: Rng, r: Run, slot: nat, m: ClientMessage, a: Server, g: Game)
    returns (mid: Server)
    requires p.Valid() && Reachable(p, rng, a) && a.control == Polling(0) && FIRST_SLOT <= slot < CONN_MAX && Short(m)
    requires |r.open| == CONN_MAX && Says(slot, m).Valid()
    requires RoundSteps(Says(slot, m), r.open) == [StartRound, Receive(slot, m, [], Position(0, 0))]
    requires Leads(p, rng, r.now, [StartRound], a)
    requires Shaped(a.game) && Handle(p, rng, a.game, slot, m, [], Position(0, 0)) == Running(g)
    ensures Leads(p, rng, r.now, RoundSteps(Says(slot, m), r.open), mid) && mid.control.Polling?
    ensures mid.game == g && mid.base == a.base
  {
    hide Leads, Reachable, Handle, RoundSteps;
    var step := Receive(slot, m, [], Position(0, 0));
    mid := Next(p, rng, a, step).server;
    LeadsOnce(p, rng, a, step);
    LeadsConcat(p, rng, r.now, [StartRound], a, [step], mid);
    assert [StartRound] + [step] == [StartRound, step];
  }

  /** Rounds are steps. */
  lemma {:induction false} RoundsAreSteps(p: Params, rng: Rng, s: Server, polls: seq<Poll>, open: seq<bool>, s': Server)
    returns (steps: seq<Step>)
    requires p.Valid() && AllValid(polls) && |open| == CONN_MAX && RoundsLead(p, rng, s, polls, open, s')
    ensures Leads(p, rng, s, steps, s')
    decreases |polls|
  {
    if polls == [] {
      steps := [];
    } else {
      hide Leads, RoundSteps, OpenAfter, Ending;
      var n, o := |polls| - 1, OpenAfterAll(polls[..|polls| - 1], open);
      var x :| RoundsLead(p, rng, s, polls[..n], open, x) && RoundLeads(p, rng, x, polls[n], o, s');
      var mid :| Leads(p, rng, x, RoundSteps(polls[n], o), mid) && Leads(p, rng, mid, Ending(mid.game), s');
      var before := RoundsAreSteps(p, rng, s, polls[..n], open, x);
      LeadsConcat(p, rng, s, before, x, RoundSteps(polls[n], o), mid);
      steps := before + RoundSteps(polls[n], o) + Ending(mid.game);
      LeadsConcat(p, rng, s, before + RoundSteps(polls[n], o), mid, Ending(mid.game), s');
    }
  }

  function Knocking(n: nat): seq<Poll> { seq(n, i => Knock()) }

  /** Of clients that connect one after another to a new server the first 25 are given slots 1 to 25, and
      none after them until one leaves. */
  lemma {:induction false} TwentyFiveAreAdmitted(n: nat)
    ensures AllValid(Knocking(n))
    ensures var open := OpenAfterAll(Knocking(n), CLOSED);
            |open| == 26 && forall i :: 0 <= i < 26 ==> (open[i] <==> i <= n)
  {
    if n > 0 {
      hide Admits, FirstFree;
      TwentyFiveAreAdmitted(n - 1);
      assert Knocking(n)[..n - 1] == Knocking(n - 1);
      KnockTakesNext(OpenAfterAll(Knocking(n - 1), CLOSED), n - 1);
    }
  }

  lemma KnockTakesNext(open: seq<bool>, n: nat)
    requires |open| == 26 && forall i :: 0 <= i < 26 ==> (open[i] <==> i <= n)
    ensures Knock().Valid()
    ensures var r := OpenAfter(Knock(), open); |r| == 26 && forall i :: 0 <= i < 26 ==> (r[i] <==> i <= n + 1)
  {
    FreeFromIsLowest(open, FIRST_SLOT);
    if n < 25 { assert !open[n + 1]; }
  }
}
