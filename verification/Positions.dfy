/** Where the client as written shows the robots. It keeps the cell of a robot it shows already
    (game-messages.h:183-186), so over a whole run each robot stays, on the client, where it last
    started or respawned. */
module Positions {
  import opened Types
  import opened Ordered
  import opened Blast
  import opened GameSpec
  import opened TurnLog
  import opened Replay
  import opened BombLife
  import opened Grammar
  import opened Scoring
  import opened Protocol
  import opened Runs
  import opened Replica
  import opened Mirror

  /** The last turn that put the robot on the board: the last that hit it, or else turn 0. */
  ghost function Seeding(turns: seq<TurnInfo>, q: u8): (t: nat)
    requires turns != []
    ensures t < |turns| && (t > 0 ==> q in Hit(turns[t].events))
    ensures forall u :: t < u < |turns| ==> q !in Hit(turns[u].events)
  {
    var n := |turns| - 1;
    if n == 0 || q in Hit(turns[n].events) then n else Seeding(turns[..n], q)
  }

  /** `c` is the cell that turn put it on: turn 0 begins with one move per player, and a robot hit in
      a later turn ends it where it respawned. */
  ghost predicate SeededAt(turns: seq<TurnInfo>, q: u8, c: Position)
    requires turns != []
  {
    var t := Seeding(turns, q);
    if t == 0 then q < |turns[0].events| && turns[0].events[q] == PlayerMoved(q, c)
    else q in ReplayTurns(turns[..t + 1]).positions && ReplayTurns(turns[..t + 1]).positions[q] == c
  }

  // ---------- one robot through a list of events ----------

  predicate Concerns(e: Event, q: u8) {
    (e.PlayerMoved? && e.player == q) || (e.BombExploded? && q in e.robots)
  }

  predicate Same(a: map<u8, Position>, b: map<u8, Position>, q: u8) {
    (q in a <==> q in b) && (q in a ==> a[q] == b[q])
  }

  lemma {:induction false} Unconcerned(at: map<u8, Position>, w: World, events: seq<Event>, q: u8)
    requires forall k :: 0 <= k < |events| ==> !Concerns(events[k], q)
    ensures Same(ShowAll(at, events), at, q) && Same(Apply(w, events).positions, w.positions, q)
  {
    if events != [] { Unconcerned(at, w, events[..|events| - 1], q); }
  }

  /** A robot that is shown and not hit stays where it is shown. */
  lemma {:induction false} StaysShown(at: map<u8, Position>, events: seq<Event>, q: u8)
    requires q in at && q !in Hit(events)
    ensures q in ShowAll(at, events) && ShowAll(at, events)[q] == at[q]
  {
    if events != [] {
      HitLast(events);
      StaysShown(at, events[..|events| - 1], q);
    }
  }

  lemma {:induction false} ShowExplosions(at: map<u8, Position>, events: seq<Event>)
    requires AllExplosions(events)
    ensures ShowAll(at, events) == at - Hit(events)
  {
    if events != [] {
      HitLast(events);
      ShowExplosions(at, events[..|events| - 1]);
    } else {
      assert Hit(events) == {};
    }
  }

  lemma {:induction false} ShowConcat(at: map<u8, Position>, a: seq<Event>, b: seq<Event>)
    ensures ShowAll(at, a + b) == ShowAll(ShowAll(at, a), b)
  {
    if b == [] {
      assert a + b == a;
    } else {
      LastOfConcat(a, b);
      ShowConcat(at, a, b[..|b| - 1]);
    }
  }

  /** A robot not shown is shown where the only event about it puts it, and is there. */
  lemma OnlyMove(at: map<u8, Position>, w: World, events: seq<Event>, q: u8, i: nat)
    requires q !in at && i < |events| && events[i].PlayerMoved? && events[i].player == q
    requires forall k :: 0 <= k < |events| && k != i ==> !Concerns(events[k], q)
    ensures var c := events[i].position;
            && q in ShowAll(at, events) && ShowAll(at, events)[q] == c
            && q in Apply(w, events).positions && Apply(w, events).positions[q] == c
  {
    hide Concerns, ShowAll, Apply;
    var a, b, one := events[..i], events[i + 1..], [events[i]];
    assert events == a + (one + b);
    ShowConcat(at, a, one + b);
    ApplyConcat(w, a, one + b);
    ShowConcat(ShowAll(at, a), one, b);
    ApplyConcat(Apply(w, a), one, b);
    Unconcerned(at, w, a, q);
    JustOne(ShowAll(at, a), Apply(w, a), events[i]);
    Unconcerned(ShowAll(ShowAll(at, a), one), Apply(Apply(w, a), one), b, q);
  }

  lemma JustOne(at: map<u8, Position>, w: World, e: Event)
    ensures ShowAll(at, [e]) == Show(at, e) && Apply(w, [e]) == ApplyEvent(w, e)
  {
    assert [e][..0] == [];
  }

  // ---------- one turn ----------

  /** A finished turn ends with one move of each robot hit. */
  lemma Respawns(p: Params, t: nat, before: World, events: seq<Event>, acts: seq<Act>) returns (n: nat)
    requires Finished(p, t, before, events, acts)
    ensures n + |Sorted8(Hit(events))| == |events| && UnderWay(p, t, before, events[..n], acts)
    ensures forall k :: n <= k < |events| ==>
              events[k].PlayerMoved? && events[k].player == Sorted8(Hit(events))[k - n]
  {
    hide UnderWay, Sorted, Hit;
    var hit := Sorted8(Hit(events));
    n := |events| - |hit|;
    forall k | n <= k < |events| ensures events[k].PlayerMoved? && events[k].player == hit[k - n] {
      assert hit[k - n] in Hit(events);
    }
  }

  /** Before that come an opening and then actions: no explosions, and moves only of players not hit. */
  lemma Actions(p: Params, t: nat, before: World, events: seq<Event>, acts: seq<Act>) returns (i: nat)
    requires UnderWay(p, t, before, events, acts)
    ensures i <= |events| && Opens(p, t, before, events[..i])
    ensures forall k :: i <= k < |events| ==>
              !events[k].BombExploded? && (events[k].PlayerMoved? ==> events[k].player !in Hit(events))
  {
    hide Opens, Justified, Hit;
    i := |events| - |acts|;
    forall k | i <= k < |events|
      ensures !events[k].BombExploded? && (events[k].PlayerMoved? ==> events[k].player !in Hit(events))
    {
      var j := k - i;
      assert acts[j].player !in Hit(events);
      JustifiedMove(p, Apply(before, events[..i + j]), acts[j], events[i + j]);
    }
  }

  /** What follows a turn's opening: no explosions, and moves only of players the turn did not hit
      until each one hit moves once, to respawn. */
  lemma AfterOpening(p: Params, t: nat, before: World, events: seq<Event>, acts: seq<Act>) returns (i: nat, n: nat)
    requires Finished(p, t, before, events, acts)
    ensures i <= n <= |events| && Opens(p, t, before, events[..i]) && |events| - n == |Sorted8(Hit(events))|
    ensures forall k :: i <= k < |events| ==> !events[k].BombExploded?
    ensures forall k :: i <= k < n && events[k].PlayerMoved? ==> events[k].player !in Hit(events)
    ensures forall k :: n <= k < |events| ==>
              events[k].PlayerMoved? && events[k].player == Sorted8(Hit(events))[k - n]
  {
    hide Finished, UnderWay, Opens, Sorted, Hit;
    n := Respawns(p, t, before, events, acts);
    i := Actions(p, t, before, events[..n], acts);
    SameHits(events, n);
    assert events[..n][..i] == events[..i];
    assert forall k :: i <= k < n ==> events[k] == events[..n][k];
  }

  lemma SameHits(events: seq<Event>, n: nat)
    requires n <= |events| && forall k :: n <= k < |events| ==> events[k].PlayerMoved?
    ensures Hit(events[..n]) == Hit(events)
  {
    assert events == events[..n] + events[n..];
    HitQuiet(events[..n], events[n..]);
  }

  lemma JustifiedMove(p: Params, w: World, a: Act, e: Event)
    requires Justified(p, w, a, e)
    ensures !e.BombExploded? && (e.PlayerMoved? ==> e.player == a.player)
  {
  }

  lemma BlastExplodes(p: Params, w: World, e: Event)
    requires TrueBlast(p, w, e)
    ensures e.BombExploded?
  {
  }

  lemma OpeningExplodes(p: Params, t: nat, before: World, opening: seq<Event>)
    requires Opens(p, t, before, opening) && t > 0
    ensures AllExplosions(opening)
  {
    hide TrueBlast;
    forall k | 0 <= k < |opening| ensures opening[k].BombExploded? {
      BlastExplodes(p, before, opening[k]);
    }
  }

  /** A turn that hits a robot leaves it shown where it is. */
  lemma ShownAfterHit(p: Params, t: nat, before: World, events: seq<Event>, acts: seq<Act>, at: map<u8, Position>,
      q: u8)
    requires Finished(p, t, before, events, acts) && t > 0 && q in Hit(events)
    ensures q in ShowAll(at, events) && q in Apply(before, events).positions
    ensures ShowAll(at, events)[q] == Apply(before, events).positions[q]
  {
    hide Opens, Finished, ShowAll, Apply, Sorted;
    var i, n := AfterOpening(p, t, before, events, acts);
    var hit, a, b := Sorted8(Hit(events)), events[..i], events[i..];
    OpeningExplodes(p, t, before, a);
    assert events == a + b;
    ShowConcat(at, a, b);
    ApplyConcat(before, a, b);
    ShowExplosions(at, a);
    assert q in Hit(a);
    var j :| 0 <= j < |hit| && hit[j] == q;
    forall k | 0 <= k < |b| && k != n + j - i ensures !Concerns(b[k], q) {
      assert b[k] == events[i + k];
    }
    OnlyMove(ShowAll(at, a), Apply(before, a), b, q, n + j - i);
  }

  /** Turn 0 leaves every robot shown on the cell of its first move. */
  lemma ShownAtStart(p: Params, before: World, events: seq<Event>, acts: seq<Act>, q: u8)
    requires Finished(p, 0, before, events, acts) && q < p.playersCount
    ensures q < |events| && events[q].PlayerMoved? && events[q].player == q
    ensures q in ShowAll(map[], events) && ShowAll(map[], events)[q] == events[q].position
  {
    hide Finished, ShowAll, Sorted;
    var i, n := AfterOpening(p, 0, before, events, acts);
    assert forall k :: 0 <= k < i ==> events[k] == events[..i][k];
    assert forall k :: 0 <= k < |events| ==> !events[k].BombExploded?;
    var a, b := events[..q + 1], events[q + 1..];
    assert events == a + b;
    ShowConcat(map[], a, b);
    OnlyMove(map[], EMPTY_WORLD, a, q, q);
    StaysShown(ShowAll(map[], a), b, q);
  }

  // ---------- whole logs ----------

  /** After finished turns every robot is shown where it last started or respawned. */
  lemma {:induction false} ShownExactly(p: Params, turns: seq<TurnInfo>, acts: seq<seq<Act>>, q: u8)
    requires turns != [] && |turns| == |acts| && PastTurns(p, turns, acts, |turns|) && q < p.playersCount
    ensures q in ShowTurns(turns) && SeededAt(turns, q, ShowTurns(turns)[q])
    decreases |turns|
  {
    hide Finished, ShowAll, Apply, Hit;
    var n := |turns| - 1;
    var before, events := ReplayTurns(turns[..n]), turns[n].events;
    assert Finished(p, n, before, events, acts[n]);
    assert turns[..n + 1] == turns;
    if n == 0 {
      ShownAtStart(p, before, events, acts[0], q);
    } else if q in Hit(events) {
      ShownAfterHit(p, n, before, events, acts[n], ShowTurns(turns[..n]), q);
    } else {
      PastKept(p, turns, acts, n, turns[..n], acts[..n]);
      ShownExactly(p, turns[..n], acts[..n], q);
      StaysShown(ShowTurns(turns[..n]), events, q);
      var t := Seeding(turns[..n], q);
      assert turns[..n][..t + 1] == turns[..t + 1];
    }
  }

  /** The robots shown are those the log has on the board. */
  lemma {:induction false} SameRobots(at: map<u8, Position>, w: World, events: seq<Event>)
    requires at.Keys == w.positions.Keys
    ensures ShowAll(at, events).Keys == Apply(w, events).positions.Keys
  {
    if events != [] { SameRobots(at, w, events[..|events| - 1]); }
  }

  lemma {:induction false} TurnsSameRobots(turns: seq<TurnInfo>)
    ensures ShowTurns(turns).Keys == ReplayTurns(turns).positions.Keys
  {
    if turns != [] {
      var n := |turns| - 1;
      TurnsSameRobots(turns[..n]);
      SameRobots(ShowTurns(turns[..n]), ReplayTurns(turns[..n]), turns[n].events);
    }
  }

  // ---------- whole runs ----------

  /** After every finished turn of any run that it survives from a lobby on, a client in any slot shows
      exactly the server's robots, each on the cell where it last started or respawned; so it shows
      them right if and only if they all stand there. */
  lemma ShowsWhereSeeded(p: Params, rng: Rng, s: Server, steps: seq<Step>, s': Server, c: Client, slot: nat)
    requires p.Valid() && Reachable(p, rng, s) && Leads(p, rng, s, steps, s') && !s.game.started
    requires HearsAll(c, News(s, s', slot)).Some? && s'.game.started && !s'.control.Polling?
    ensures s'.game.turns != []
    ensures var shown := HearsAll(c, News(s, s', slot)).value.info.positions;
            && shown.Keys == s'.game.positions.Keys
            && (forall q :: q in shown ==> SeededAt(s'.game.turns, q, shown[q]))
            && (shown == s'.game.positions <==>
                  forall q :: q in shown ==> SeededAt(s'.game.turns, q, s'.game.positions[q]))
  {
    hide Everything, HearsAll, News, Leads, Reachable, RunSpares, PastTurns, SeededAt, ShowTurns, ReplayTurns;
    EverythingHolds(p, rng, s);
    EverythingLeads(p, rng, s, steps, s');
    RunSparesExactly(p, rng, s, steps, s', c, slot);
    AllOnTheBoard(p, s');
    var turns, shown := s'.game.turns, ShowTurns(s'.game.turns);
    TurnsSameRobots(turns);
    forall q | q in shown ensures SeededAt(turns, q, shown[q]) {
      ShownExactly(p, turns, s'.acts, q);
    }
    forall q | q in shown && SeededAt(turns, q, s'.game.positions[q]) ensures shown[q] == s'.game.positions[q] {
      OneSeedCell(turns, q, shown[q], s'.game.positions[q]);
    }
  }

  lemma AllOnTheBoard(p: Params, s: Server)
    requires Everything(p, s) && s.game.started && !s.control.Polling?
    ensures s.game.turns != [] && |s.game.turns| == |s.acts| && PastTurns(p, s.game.turns, s.acts, |s.game.turns|)
    ensures ReplayTurns(s.game.turns).positions == s.game.positions
    ensures forall q: u8 :: q in s.game.positions <==> q < p.playersCount
  {
    hide TimersInv, LogInv, CapacityInv, TallyInv, TalkInv, PastTurns, ReplayTurns;
    assert s.game.positions - {} == s.game.positions;
  }

  lemma OneSeedCell(turns: seq<TurnInfo>, q: u8, a: Position, b: Position)
    requires turns != [] && SeededAt(turns, q, a) && SeededAt(turns, q, b)
    ensures a == b
  {
  }
}
