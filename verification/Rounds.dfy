/** One round of the server's loop (game-engine.cpp:31-71) as a list of the machine's steps: what the
    poll reported decides which steps are taken, and the steps decide everything else. */
module Rounds {
  import opened Types
  import opened Blast
  import opened Wire
  import opened GameSpec
  import opened Runs
  import opened ClientMessages
  import opened TcpHandling

  /** A read from one slot, the address recorded for it, and the value an uninitialised position has. */
  datatype Read = Read(incoming: Incoming, address: seq<u8>, stale: Position)

  /** What poll reported: whether a client is waiting, and which slots are readable. */
  datatype Poll = Poll(newClient: bool, inbox: seq<Option<Read>>)
  {
    predicate Valid() {
      |inbox| == CONN_MAX &&
      forall i :: 0 <= i < |inbox| && inbox[i].Some? ==>
        |inbox[i].value.address| < 0x100 &&
        (inbox[i].value.incoming.Data? ==> |inbox[i].value.incoming.bytes| <= BUF_SIZE)
    }
  }

  /** The message a read delivers, if its bytes are whole messages. */
  function Delivered(incoming: Incoming): Option<ClientMessage> {
    if incoming.Data? then ParseBuffer(incoming.bytes) else None
  }

  function StatusOf(incoming: Incoming): Status {
    match incoming
    case Failed => ErrorConn
    case Data(bytes) => if bytes == [] then EndConn else if ParseBuffer(bytes).None? then ErrorMsg else Success
  }

  /** The statuses tell apart a failed read, a closed connection, whole messages, and anything else. */
  lemma StatusTells(incoming: Incoming)
    ensures StatusOf(incoming) == ErrorConn <==> incoming.Failed?
    ensures StatusOf(incoming) == EndConn <==> incoming == Data([])
    ensures StatusOf(incoming) == Success <==>
            incoming.Data? && exists ms :: ms != [] && AllShort(ms) && incoming.bytes == Concat(ClientBytes, ms)
    ensures StatusOf(incoming) != PotentiallySuccess
  {
    NothingToParse();
    if incoming.Data? {
      if ParseBuffer(incoming.bytes).Some? { var ms := AcceptedIsWhole(incoming.bytes); }
      if ms :| ms != [] && AllShort(ms) && incoming.bytes == Concat(ClientBytes, ms) { WholeMessagesAccepted(ms); }
    }
  }

  function ReceivedFrom(read: Option<Read>, open: bool, slot: nat): seq<Step> {
    if open && read.Some? && Delivered(read.value.incoming).Some? then
      [Receive(slot, Delivered(read.value.incoming).value, read.value.address, read.value.stale)]
    else []
  }

  /** The messages of slots 1..k-1, in slot order, at most one each. */
  function Received(inbox: seq<Option<Read>>, open: seq<bool>, k: nat): seq<Step>
    requires k <= |inbox| && k <= |open|
  {
    if k <= FIRST_SLOT then [] else Received(inbox, open, k - 1) + ReceivedFrom(inbox[k - 1], open[k - 1], k - 1)
  }

  lemma {:induction false} ReceivedSplit(inbox: seq<Option<Read>>, open: seq<bool>, k: nat, n: nat)
    requires FIRST_SLOT <= k < n <= |inbox| && n <= |open|
    ensures var one := ReceivedFrom(inbox[k], open[k], k);
            var m := |Received(inbox, open, k)| + |one|;
            m <= |Received(inbox, open, n)|
                && Received(inbox, open, n) == Received(inbox, open, k) + one + Received(inbox, open, n)[m..]
  {
    if k < n - 1 { ReceivedSplit(inbox, open, k, n - 1); }
  }

  lemma NothingFrom(read: Option<Read>, open: bool, slot: nat, done: seq<Step>)
    requires !open || read.None?
    ensures done + ReceivedFrom(read, open, slot) == done
  {
  }

  lemma LeadsNowhere(p: Params, rng: Rng, s: Server)
    requires p.Valid()
    ensures Leads(p, rng, s, [], s)
  {
  }

  lemma DeliveredStatus(incoming: Incoming)
    ensures StatusOf(incoming) == Success <==> Delivered(incoming).Some?
  {
    NothingToParse();
  }

  /** The slots open once the waiting client, if any, has been given the lowest free one. */
  function Opened(open: seq<bool>, newClient: bool): seq<bool>
    requires |open| == CONN_MAX
  {
    if newClient && Admits(open) then open[FirstFree(open) := true] else open
  }

  predicate Admits(open: seq<bool>): (yes: bool)
    requires |open| == CONN_MAX
    ensures yes ==> FIRST_SLOT <= FirstFree(open) < CONN_MAX
    ensures yes <==> exists i :: FIRST_SLOT <= i < CONN_MAX && !open[i]
  {
    FreeFromIsLowest(open, FIRST_SLOT);
    FirstFree(open) >= 0
  }

  /** The slots still open after the reads: a client whose bytes were no message is disconnected. */
  function Answered(inbox: seq<Option<Read>>, open: seq<bool>): (r: seq<bool>)
    requires |inbox| == |open| == CONN_MAX
    ensures |r| == CONN_MAX
  {
    seq(CONN_MAX, i requires 0 <= i < CONN_MAX => open[i] && (i < FIRST_SLOT || Keeps(inbox[i])))
  }

  predicate Keeps(read: Option<Read>) {
    read.None? || Delivered(read.value.incoming).Some?
  }

  /** A client stays if and only if it sent nothing or whole messages only. */
  lemma WholeMessagesStay(inbox: seq<Option<Read>>, open: seq<bool>, i: nat)
    requires |inbox| == |open| == CONN_MAX && FIRST_SLOT <= i < CONN_MAX && open[i]
    ensures Answered(inbox, open)[i] <==>
            inbox[i].None? || (inbox[i].value.incoming.Data? && exists ms ::
              ms != [] && AllShort(ms) && inbox[i].value.incoming.bytes == Concat(ClientBytes, ms))
  {
    if inbox[i].Some? {
      StatusTells(inbox[i].value.incoming);
      DeliveredStatus(inbox[i].value.incoming);
    }
  }

  /** The slot table after a round. */
  function OpenAfter(poll: Poll, open: seq<bool>): (r: seq<bool>)
    requires poll.Valid() && |open| == CONN_MAX
    ensures |r| == CONN_MAX
  {
    Answered(poll.inbox, Opened(open, poll.newClient))
  }

  /** The steps of a round up to the end of its messages. */
  function RoundSteps(poll: Poll, open: seq<bool>): seq<Step>
    requires poll.Valid() && |open| == CONN_MAX
  {
    [StartRound] + (if poll.newClient && Admits(open) then [AcceptClient] else []) +
    Received(poll.inbox, Opened(open, poll.newClient), CONN_MAX)
  }

  lemma {:induction false} LeadsConcat(p: Params, rng: Rng, a: Server, x: seq<Step>, b: Server, y: seq<Step>, c: Server)
    requires p.Valid() && Leads(p, rng, a, x, b) && Leads(p, rng, b, y, c)
    ensures Leads(p, rng, a, x + y, c)
    decreases |x|
  {
    hide Next, Enabled, Shaped;
    if x == [] {
      assert x + y == y;
    } else {
      assert (x + y)[1..] == x[1..] + y;
      LeadsConcat(p, rng, Next(p, rng, a, x[0]).server, x[1..], b, y, c);
    }
  }

  lemma LeadsOnce(p: Params, rng: Rng, s: Server, step: Step)
    requires p.Valid() && Shaped(s.game) && Enabled(p, s, step) && Next(p, rng, s, step).Alive?
    ensures Leads(p, rng, s, [step], Next(p, rng, s, step).server)
  {
    hide Next, Enabled, Shaped;
    assert [step][1..] == [];
  }

  lemma StaysReachable(p: Params, rng: Rng, s: Server, steps: seq<Step>, s': Server)
    requires p.Valid() && Reachable(p, rng, s) && Leads(p, rng, s, steps, s')
    ensures Reachable(p, rng, s')
  {
    var before :| Leads(p, rng, INITIAL_SERVER, before, s);
    LeadsConcat(p, rng, INITIAL_SERVER, before, s, steps, s');
  }

  lemma DiesAfter(p: Params, rng: Rng, a: Server, x: seq<Step>, b: Server, y: seq<Step>, z: seq<Step>)
    requires p.Valid() && Leads(p, rng, a, x, b) && Dies(p, rng, b, y)
    ensures Dies(p, rng, a, x + y + z)
  {
    var k, mid :| 0 <= k < |y| && Leads(p, rng, b, y[..k], mid) && Shaped(mid.game) &&
                  Enabled(p, mid, y[k]) && Next(p, rng, mid, y[k]).Dead?;
    LeadsConcat(p, rng, a, x, b, y[..k], mid);
    var all := x + y + z;
    assert all[..|x| + k] == x + y[..k] && all[|x| + k] == y[k];
  }

  /** A slot that has joined asks for an action while the lobby still waits for players. */
  predicate LobbyAction(s: Server, step: Step) {
    !s.game.started && step.Receive? && step.slot in s.game.slots && !step.message.Join?
  }

  /** Taken from `s`, the steps come to such an action, each possible where it is taken. */
  ghost predicate MeetsLobbyAction(p: Params, rng: Rng, s: Server, steps: seq<Step>)
    requires p.Valid()
  {
    exists k, mid :: 0 <= k < |steps| && Leads(p, rng, s, steps[..k], mid) && Enabled(p, mid, steps[k]) &&
      LobbyAction(mid, steps[k])
  }

  /** The steps of a run kill the server exactly when they come to a lobby action. */
  lemma DeathIsProvoked(p: Params, rng: Rng, s: Server, steps: seq<Step>)
    requires p.Valid() && Reachable(p, rng, s)
    ensures Dies(p, rng, s, steps) <==> MeetsLobbyAction(p, rng, s, steps)
  {
    hide Leads, Reachable, Next, Enabled;
    forall k, mid | 0 <= k < |steps| && Leads(p, rng, s, steps[..k], mid) && Enabled(p, mid, steps[k])
      ensures Shaped(mid.game) && (Next(p, rng, mid, steps[k]).Dead? <==> LobbyAction(mid, steps[k]))
    {
      StaysReachable(p, rng, s, steps[..k], mid);
      DiesOnlyInLobby(p, rng, mid, steps[k]);
    }
  }

  /** The steps determine the states they lead through. */
  lemma {:induction false} LeadsSplit(p: Params, rng: Rng, s: Server, steps: seq<Step>, s': Server, k: nat, mid: Server)
    requires p.Valid() && k <= |steps| && Leads(p, rng, s, steps, s') && Leads(p, rng, s, steps[..k], mid)
    ensures Leads(p, rng, mid, steps[k..], s')
    decreases k
  {
    hide Next, Enabled, Shaped;
    if k == 0 {
      assert steps[k..] == steps;
    } else {
      var s1, more := Next(p, rng, s, steps[0]).server, steps[1..];
      assert steps[..k][0] == steps[0] && steps[..k][1..] == more[..k - 1];
      assert Leads(p, rng, s1, more, s') && Leads(p, rng, s1, more[..k - 1], mid);
      LeadsSplit(p, rng, s1, more, s', k - 1, mid);
      assert more[k - 1..] == steps[k..];
    }
  }

  lemma LeadsUnique(p: Params, rng: Rng, s: Server, steps: seq<Step>, a: Server, b: Server)
    requires p.Valid() && Leads(p, rng, s, steps, a) && Leads(p, rng, s, steps, b)
    ensures a == b
  {
    assert steps[..|steps|] == steps;
    LeadsSplit(p, rng, s, steps, a, |steps|, b);
  }

  /** A run that is alive at the end has not died on the way. */
  lemma LeadsIsAlive(p: Params, rng: Rng, s: Server, steps: seq<Step>, s': Server)
    requires p.Valid() && Leads(p, rng, s, steps, s')
    ensures !Dies(p, rng, s, steps)
  {
    hide Next, Enabled, Shaped;
    forall k, mid | 0 <= k < |steps| && Leads(p, rng, s, steps[..k], mid)
      ensures Shaped(mid.game) && Enabled(p, mid, steps[k]) && Next(p, rng, mid, steps[k]).Alive?
    {
      LeadsSplit(p, rng, s, steps, s', k, mid);
    }
  }

  lemma DiesNow(p: Params, rng: Rng, s: Server, step: Step)
    requires p.Valid() && Shaped(s.game) && Enabled(p, s, step) && Next(p, rng, s, step).Dead?
    ensures Dies(p, rng, s, [step])
  {
    hide Next, Enabled, Shaped;
    assert [step][..0] == [];
    assert Leads(p, rng, s, [step][..0], s);
  }

  /** A Receive step does to the game what handling the message does. */
  lemma ReceiveStep(p: Params, rng: Rng, s: Server, slot: nat, m: ClientMessage, address: seq<u8>, stale: Position)
    requires p.Valid() && Reachable(p, rng, s) && Short(m) && |address| < 0x100
    requires s.control.Polling? && s.control.next <= slot && FIRST_SLOT <= slot < CONN_MAX
    ensures Shaped(s.game) && Enabled(p, s, Receive(slot, m, address, stale))
    ensures match Handle(p, rng, s.game, slot, m, address, stale)
            case Crashed => Dies(p, rng, s, [Receive(slot, m, address, stale)])
            case Running(g) => exists s' :: Leads(p, rng, s, [Receive(slot, m, address, stale)], s') &&
                                            s'.game == g && s'.control == Polling(slot + 1)
  {
    hide Handle, Leads, Reachable, Dies;
    var step := Receive(slot, m, address, stale);
    DiesOnlyInLobby(p, rng, s, step);
    match Handle(p, rng, s.game, slot, m, address, stale)
    case Crashed => DiesNow(p, rng, s, step);
    case Running(g) => LeadsOnce(p, rng, s, step);
  }

  /** The steps after the messages: a turn that was played is summarised. */
  function Ending(g: Game): seq<Step> {
    if g.started then [EndRound, Continue] else [EndRound]
  }

  /** A whole round leads from `s` to `s'`. */
  ghost predicate RoundLeads(p: Params, rng: Rng, s: Server, poll: Poll, open: seq<bool>, s': Server)
    requires p.Valid() && poll.Valid() && |open| == CONN_MAX
  {
    exists mid :: Leads(p, rng, s, RoundSteps(poll, open), mid) && Leads(p, rng, mid, Ending(mid.game), s')
  }

  lemma RoundStaysReachable(p: Params, rng: Rng, s: Server, poll: Poll, open: seq<bool>, s': Server)
    requires p.Valid() && poll.Valid() && |open| == CONN_MAX && Reachable(p, rng, s)
    requires RoundLeads(p, rng, s, poll, open, s')
    ensures Reachable(p, rng, s') && !Dies(p, rng, s, RoundSteps(poll, open))
  {
    hide Reachable, Leads, RoundSteps, Ending, Dies;
    var mid :| Leads(p, rng, s, RoundSteps(poll, open), mid) && Leads(p, rng, mid, Ending(mid.game), s');
    StaysReachable(p, rng, s, RoundSteps(poll, open), mid);
    StaysReachable(p, rng, mid, Ending(mid.game), s');
    LeadsIsAlive(p, rng, s, RoundSteps(poll, open), mid);
  }

  lemma RoundUnique(p: Params, rng: Rng, s: Server, poll: Poll, open: seq<bool>, a: Server, b: Server)
    requires p.Valid() && poll.Valid() && |open| == CONN_MAX
    requires RoundLeads(p, rng, s, poll, open, a) && RoundLeads(p, rng, s, poll, open, b)
    ensures a == b
  {
    hide Leads, RoundSteps, Ending;
    var x :| Leads(p, rng, s, RoundSteps(poll, open), x) && Leads(p, rng, x, Ending(x.game), a);
    var y :| Leads(p, rng, s, RoundSteps(poll, open), y) && Leads(p, rng, y, Ending(y.game), b);
    LeadsUnique(p, rng, s, RoundSteps(poll, open), x, y);
    LeadsUnique(p, rng, x, Ending(x.game), a, b);
  }

  // ---------- many rounds ----------

  predicate AllValid(polls: seq<Poll>) {
    forall i :: 0 <= i < |polls| ==> polls[i].Valid()
  }

  function OpenAfterAll(polls: seq<Poll>, open: seq<bool>): (r: seq<bool>)
    requires AllValid(polls) && |open| == CONN_MAX
    ensures |r| == CONN_MAX
  {
    if polls == [] then open else
      var n := |polls| - 1;
      OpenAfter(polls[n], OpenAfterAll(polls[..n], open))
  }

  /** These rounds, in this order and from this slot table, lead from `s` to `s'`. */
  ghost predicate RoundsLead(p: Params, rng: Rng, s: Server, polls: seq<Poll>, open: seq<bool>, s': Server)
    requires p.Valid() && AllValid(polls) && |open| == CONN_MAX
    decreases |polls|
  {
    if polls == [] then s' == s else
      var n := |polls| - 1;
      exists mid :: RoundsLead(p, rng, s, polls[..n], open, mid) &&
                    RoundLeads(p, rng, mid, polls[n], OpenAfterAll(polls[..n], open), s')
  }

  /** One of these rounds, reached through those before it, comes to a lobby action. */
  ghost predicate RoundsMeetLobbyAction(p: Params, rng: Rng, s: Server, polls: seq<Poll>, open: seq<bool>)
    requires p.Valid() && AllValid(polls) && |open| == CONN_MAX
  {
    exists k, mid :: 0 <= k < |polls| && RoundsLead(p, rng, s, polls[..k], open, mid) &&
      MeetsLobbyAction(p, rng, mid, RoundSteps(polls[k], OpenAfterAll(polls[..k], open)))
  }

  lemma {:induction false} RoundsUnique(p: Params, rng: Rng, s: Server, polls: seq<Poll>, open: seq<bool>, a: Server,
      b: Server)
    requires p.Valid() && AllValid(polls) && |open| == CONN_MAX
    requires RoundsLead(p, rng, s, polls, open, a) && RoundsLead(p, rng, s, polls, open, b)
    ensures a == b
    decreases |polls|
  {
    if polls != [] {
      hide RoundLeads, OpenAfterAll;
      var n, o := |polls| - 1, OpenAfterAll(polls[..|polls| - 1], open);
      var x :| RoundsLead(p, rng, s, polls[..n], open, x) && RoundLeads(p, rng, x, polls[n], o, a);
      var y :| RoundsLead(p, rng, s, polls[..n], open, y) && RoundLeads(p, rng, y, polls[n], o, b);
      RoundsUnique(p, rng, s, polls[..n], open, x, y);
      RoundUnique(p, rng, x, polls[n], o, a, b);
    }
  }

  lemma {:induction false} RoundsStayReachable(p: Params, rng: Rng, s: Server, polls: seq<Poll>, open: seq<bool>,
      s': Server)
    requires p.Valid() && AllValid(polls) && |open| == CONN_MAX
    requires Reachable(p, rng, s) && RoundsLead(p, rng, s, polls, open, s')
    ensures Reachable(p, rng, s')
    decreases |polls|
  {
    if polls != [] {
      hide Reachable, RoundLeads, OpenAfterAll;
      var n, o := |polls| - 1, OpenAfterAll(polls[..|polls| - 1], open);
      var x :| RoundsLead(p, rng, s, polls[..n], open, x) && RoundLeads(p, rng, x, polls[n], o, s');
      RoundsStayReachable(p, rng, s, polls[..n], open, x);
      RoundStaysReachable(p, rng, x, polls[n], o, s');
    }
  }

  lemma {:induction false} NoRoundDies(p: Params, rng: Rng, s: Server, polls: seq<Poll>, open: seq<bool>, s': Server,
      k: nat, mid: Server)
    requires p.Valid() && AllValid(polls) && |open| == CONN_MAX && k < |polls|
    requires Reachable(p, rng, s) && RoundsLead(p, rng, s, polls, open, s')
    requires RoundsLead(p, rng, s, polls[..k], open, mid)
    ensures !MeetsLobbyAction(p, rng, mid, RoundSteps(polls[k], OpenAfterAll(polls[..k], open)))
    decreases |polls|
  {
    hide Reachable, RoundLeads, OpenAfterAll, Dies, MeetsLobbyAction, RoundSteps, Poll.Valid;
    var n, o := |polls| - 1, OpenAfterAll(polls[..|polls| - 1], open);
    var x :| RoundsLead(p, rng, s, polls[..n], open, x) && RoundLeads(p, rng, x, polls[n], o, s');
    if k < n {
      assert polls[..n][..k] == polls[..k] && polls[..n][k] == polls[k];
      NoRoundDies(p, rng, s, polls[..n], open, x, k, mid);
    } else {
      RoundsUnique(p, rng, s, polls[..n], open, x, mid);
      RoundsStayReachable(p, rng, s, polls[..n], open, x);
      RoundStaysReachable(p, rng, x, polls[n], o, s');
      DeathIsProvoked(p, rng, x, RoundSteps(polls[n], o));
    }
  }

  /** Rounds that lead somewhere come to no lobby action. */
  lemma RoundsAreAlive(p: Params, rng: Rng, s: Server, polls: seq<Poll>, open: seq<bool>, s': Server)
    requires p.Valid() && AllValid(polls) && |open| == CONN_MAX
    requires Reachable(p, rng, s) && RoundsLead(p, rng, s, polls, open, s')
    ensures !RoundsMeetLobbyAction(p, rng, s, polls, open)
  {
    hide Reachable, RoundsLead, OpenAfterAll, MeetsLobbyAction, RoundSteps, Poll.Valid;
    forall k, mid | 0 <= k < |polls| && RoundsLead(p, rng, s, polls[..k], open, mid)
      ensures !MeetsLobbyAction(p, rng, mid, RoundSteps(polls[k], OpenAfterAll(polls[..k], open)))
    {
      NoRoundDies(p, rng, s, polls, open, s', k, mid);
    }
  }

  lemma StartStep(p: Params, rng: Rng, s: Server) returns (a: Server)
    requires p.Valid() && Reachable(p, rng, s) && s.control.Top?
    ensures Shaped(s.game) && (s.game.started ==> s.game.turn < 0xFFFF)
    ensures Leads(p, rng, s, [StartRound], a) && Reachable(p, rng, a) && a.control == Polling(0) && a.base == s.base
    ensures a.game == if s.game.started then BeginTurn(p, s.game) else s.game
  {
    hide Leads, Reachable, BeginTurn;
    DiesOnlyInLobby(p, rng, s, StartRound);
    a := Next(p, rng, s, StartRound).server;
    LeadsOnce(p, rng, s, StartRound);
    StaysReachable(p, rng, s, [StartRound], a);
  }

  lemma GreetStep(p: Params, rng: Rng, s: Server) returns (a: Server)
    requires p.Valid() && Reachable(p, rng, s) && s.control == Polling(0)
    ensures Leads(p, rng, s, [AcceptClient], a) && Reachable(p, rng, a) && a.control == Polling(1)
    ensures a.base == s.base && a.game == Greet(p, s.game, GREETED_SLOT)
  {
    hide Leads, Reachable, Greet;
    DiesOnlyInLobby(p, rng, s, AcceptClient);
    a := Next(p, rng, s, AcceptClient).server;
    LeadsOnce(p, rng, s, AcceptClient);
    StaysReachable(p, rng, s, [AcceptClient], a);
  }

  lemma EndStep(p: Params, rng: Rng, s: Server) returns (a: Server)
    requires p.Valid() && Reachable(p, rng, s) && s.control.Polling?
    ensures Shaped(s.game) && (s.game.started ==> s.game.toDestroy <= s.game.scores.Keys)
    ensures Leads(p, rng, s, Ending(s.game), a) && a.control.Top?
    ensures a.game.started == s.game.started ==> a.base == s.base
    ensures a.game == if !s.game.started then s.game else
                        var c := CloseTurn(p, rng, s.game);
                        if c.turn == p.gameLength then EndGameplay(c) else c
  {
    hide Leads, Reachable, CloseTurn;
    DiesOnlyInLobby(p, rng, s, EndRound);
    var c := Next(p, rng, s, EndRound).server;
    LeadsOnce(p, rng, s, EndRound);
    StaysReachable(p, rng, s, [EndRound], c);
    a := c;
    if s.game.started {
      DiesOnlyInLobby(p, rng, c, Continue);
      a := Next(p, rng, c, Continue).server;
      LeadsOnce(p, rng, c, Continue);
      LeadsConcat(p, rng, s, [EndRound], c, [Continue], a);
      assert [EndRound] + [Continue] == [EndRound, Continue];
    }
  }

  /** A delivered message is short enough for the step that handles it. */
  lemma DeliveredIsShort(incoming: Incoming)
    ensures Delivered(incoming).Some? ==> Short(Delivered(incoming).value)
  {
    if Delivered(incoming).Some? { var ms := AcceptedIsWhole(incoming.bytes); }
  }
}
