/** What the engine's loops have done after `k` turns: the facts the loop invariants of GameEngine are
    carried by. */
module EngineLoops {
  import opened Types
  import opened Ordered
  import opened Blast
  import opened GameSpec

  // ---------- the inner loop over players_positions ----------

  /** The players of `keys` that stand on `c`, in the order of `keys`. */
  function Standing(positions: map<u8, Position>, c: Position, keys: seq<u8>): seq<u8>
    requires forall i :: 0 <= i < |keys| ==> keys[i] in positions
  {
    if keys == [] then [] else
      var n := |keys| - 1;
      Standing(positions, c, keys[..n]) + if positions[keys[n]] == c then [keys[n]] else []
  }

  lemma {:induction false} StandingMembers(positions: map<u8, Position>, c: Position, keys: seq<u8>, x: u8)
    requires forall i :: 0 <= i < |keys| ==> keys[i] in positions
    ensures x in Standing(positions, c, keys) <==> x in keys && positions[x] == c
  {
    if keys != [] {
      var n := |keys| - 1;
      StandingMembers(positions, c, keys[..n], x);
      assert keys == keys[..n] + [keys[n]];
    }
  }

  lemma {:induction false} StandingAscends(positions: map<u8, Position>, c: Position, keys: seq<u8>)
    requires Ascending(keys) && forall i :: 0 <= i < |keys| ==> keys[i] in positions
    ensures Ascending(Standing(positions, c, keys))
  {
    if keys != [] {
      var n := |keys| - 1;
      var hit := Standing(positions, c, keys[..n]);
      StandingAscends(positions, c, keys[..n]);
      forall i | 0 <= i < |hit| ensures hit[i] < keys[n] {
        StandingMembers(positions, c, keys[..n], hit[i]);
      }
    }
  }

  lemma ElemsStanding(positions: map<u8, Position>, c: Position)
    ensures Elems(Sorted8(RobotsAt(positions, c))) == RobotsAt(positions, c)
    ensures Elems<u8>([]) == {}
  {
  }

  lemma ElemsOne<T>(x: T)
    ensures Elems([x]) == {x}
  {
  }

  lemma StandingIsSorted(positions: map<u8, Position>, c: Position)
    ensures Standing(positions, c, Sorted8(positions.Keys)) == Sorted8(RobotsAt(positions, c))
  {
    var keys := Sorted8(positions.Keys);
    StandingAscends(positions, c, keys);
    forall x ensures x in Standing(positions, c, keys) <==> x in RobotsAt(positions, c) {
      if x in Standing(positions, c, keys) || x in keys { StandingMembers(positions, c, keys, x); }
    }
    SortedUnique(RobotsAt(positions, c), Standing(positions, c, keys));
  }

  lemma StandingNext(positions: map<u8, Position>, c: Position, keys: seq<u8>, k: nat)
    requires k < |keys| && forall i :: 0 <= i < |keys| ==> keys[i] in positions
    ensures Standing(positions, c, keys[..k + 1]) ==
            Standing(positions, c, keys[..k]) + if positions[keys[k]] == c then [keys[k]] else []
  {
    assert keys[..k + 1][..k] == keys[..k];
  }

  lemma NobodyYet(positions: map<u8, Position>, c: Position)
    ensures Standing(positions, c, []) == []
  {
  }

  // ---------- the loop over the radius ----------

  /** The bomb's own cell and the cells of the first `n` rounds. */
  function Reached(p: Params, blocks: set<Position>, o: Position, n: u16): seq<Position> {
    [o] + Rings(p, blocks, o, n)
  }

  lemma VisitedCells(p: Params, positions: map<u8, Position>, blocks: set<Position>, o: Position)
    ensures Visited(p, blocks, o) == if o in blocks then [o] else Reached(p, blocks, o, p.explosionRadius)
    ensures Elems(RobotsOn(positions, [o])) <= Elems(RobotsOn(positions, Reached(p, blocks, o, p.explosionRadius)))
    ensures o in blocks ==> BlocksOn(blocks, [o]) == [o]
  {
    OneCellLists(positions, blocks, o);
    RobotsOnConcat(positions, [o], Rings(p, blocks, o, p.explosionRadius));
  }

  /** The go-flags after `n` rounds: down, up, left, right. */
  function Flags(p: Params, blocks: set<Position>, o: Position, n: u16): seq<bool> {
    [Open(p, blocks, o, DOWN, n), Open(p, blocks, o, UP, n), Open(p, blocks, o, LEFT, n), Open(p, blocks, o, RIGHT, n)]
  }

  lemma OpenNext(p: Params, blocks: set<Position>, o: Position, d: u8, i: u16)
    requires i >= 1
    ensures Open(p, blocks, o, d, i) <==>
            Open(p, blocks, o, d, i - 1) && OnBoard(p, Cell(o, d, i)) && Cell(o, d, i) !in blocks
  {
  }

  lemma FirstRound(p: Params, positions: map<u8, Position>, blocks: set<Position>, o: Position)
    ensures Flags(p, blocks, o, 0) == [true, true, true, true] && Reached(p, blocks, o, 0) == [o]
    ensures o !in blocks ==> BlocksOn(blocks, [o]) == []
  {
    OneCellLists(positions, blocks, o);
  }

  lemma Chain<T>(x: seq<T>, a: seq<T>, b: seq<T>, c: seq<T>, d: seq<T>)
    ensures x + a + b + c + d == x + (a + b + c + d)
    ensures Elems(a + b + c + d) == Elems(a) + Elems(b) + Elems(c) + Elems(d)
  {
  }

  lemma OneCellLists(positions: map<u8, Position>, blocks: set<Position>, c: Position)
    ensures RobotsOn(positions, [c]) == Sorted8(RobotsAt(positions, c)) && RobotsOn(positions, []) == []
    ensures Elems(RobotsOn(positions, [c])) == RobotsAt(positions, c)
    ensures BlocksOn(blocks, [c]) == BlockAt(blocks, c) && BlocksOn(blocks, []) == []
  {
    assert [c][..0] == [];
    assert [] + Sorted8(RobotsAt(positions, c)) == Sorted8(RobotsAt(positions, c));
    assert [] + BlockAt(blocks, c) == BlockAt(blocks, c);
  }

  /** The lists of a ring are those of its arms in order. */
  lemma RingLists(p: Params, positions: map<u8, Position>, blocks: set<Position>, o: Position, i: u16)
    requires i >= 1
    ensures var d, u := Arm(p, blocks, o, DOWN, i), Arm(p, blocks, o, UP, i);
            var l, r := Arm(p, blocks, o, LEFT, i), Arm(p, blocks, o, RIGHT, i);
            var ring := Ring(p, blocks, o, i);
            && RobotsOn(positions, ring) == RobotsOn(positions, d) + RobotsOn(positions, u)
                + RobotsOn(positions, l) + RobotsOn(positions, r)
            && BlocksOn(blocks, ring) == BlocksOn(blocks, d) + BlocksOn(blocks, u) + BlocksOn(blocks, l)
                + BlocksOn(blocks, r)
            && RobotsOn(positions, Reached(p, blocks, o, i)) ==
                RobotsOn(positions, Reached(p, blocks, o, i - 1)) + RobotsOn(positions, ring)
            && BlocksOn(blocks, Reached(p, blocks, o, i)) ==
                BlocksOn(blocks, Reached(p, blocks, o, i - 1)) + BlocksOn(blocks, ring)
  {
    hide Arm, RobotsOn, BlocksOn;
    var d, u := Arm(p, blocks, o, DOWN, i), Arm(p, blocks, o, UP, i);
    var l, r := Arm(p, blocks, o, LEFT, i), Arm(p, blocks, o, RIGHT, i);
    RobotsOnConcat(positions, d + u + l, r);
    RobotsOnConcat(positions, d + u, l);
    RobotsOnConcat(positions, d, u);
    BlocksOnConcat(blocks, d + u + l, r);
    BlocksOnConcat(blocks, d + u, l);
    BlocksOnConcat(blocks, d, u);
    Associates([o], Rings(p, blocks, o, i - 1), Ring(p, blocks, o, i));
    RobotsOnConcat(positions, Reached(p, blocks, o, i - 1), Ring(p, blocks, o, i));
    BlocksOnConcat(blocks, Reached(p, blocks, o, i - 1), Ring(p, blocks, o, i));
  }

  lemma ListsGrow(p: Params, positions: map<u8, Position>, blocks: set<Position>, o: Position, i: u16)
    requires i >= 1
    ensures var ring := Ring(p, blocks, o, i);
            && RobotsOn(positions, Reached(p, blocks, o, i)) ==
                RobotsOn(positions, Reached(p, blocks, o, i - 1)) + RobotsOn(positions, ring)
            && BlocksOn(blocks, Reached(p, blocks, o, i)) ==
                BlocksOn(blocks, Reached(p, blocks, o, i - 1)) + BlocksOn(blocks, ring)
            && Elems(RobotsOn(positions, Reached(p, blocks, o, i))) ==
               Elems(RobotsOn(positions, Reached(p, blocks, o, i - 1))) + Elems(RobotsOn(positions, ring))
  {
    hide RobotsOn, BlocksOn;
    RingLists(p, positions, blocks, o, i);
    ElemsConcat(RobotsOn(positions, Reached(p, blocks, o, i - 1)), RobotsOn(positions, Ring(p, blocks, o, i)));
  }

  // ---------- the loops over bombs ----------

  /** The bombs left once the expired ones among `keys` are erased. */
  function Kept(bombs: map<u32, Bomb>, keys: seq<u32>): map<u32, Bomb> {
    map id | id in bombs && !(id in keys && bombs[id].timer == 0) :: bombs[id]
  }

  lemma KeptNext(bombs: map<u32, Bomb>, keys: seq<u32>, k: nat)
    requires Ascending(keys) && k < |keys| && keys[k] in bombs
    ensures keys[k] in Kept(bombs, keys[..k]) && Kept(bombs, keys[..k])[keys[k]] == bombs[keys[k]]
    ensures Kept(bombs, keys[..k + 1]) ==
            if bombs[keys[k]].timer == 0 then Kept(bombs, keys[..k]) - {keys[k]} else Kept(bombs, keys[..k])
  {
    assert keys[..k + 1] == keys[..k] + [keys[k]];
  }

  lemma KeptEnds(bombs: map<u32, Bomb>, keys: seq<u32>)
    requires forall id :: id in bombs ==> id in keys
    ensures Kept(bombs, []) == bombs && Kept(bombs, keys) == bombs - Expired(bombs)
  {
  }

  /** The bombs once those among `keys` have ticked. */
  function Ticked(bombs: map<u32, Bomb>, keys: seq<u32>): map<u32, Bomb> {
    map id | id in bombs :: if id in keys then Tick(bombs[id]) else bombs[id]
  }

  lemma TickedNext(bombs: map<u32, Bomb>, keys: seq<u32>, k: nat)
    requires Ascending(keys) && k < |keys| && keys[k] in bombs
    ensures Ticked(bombs, keys[..k]).Keys == bombs.Keys
    ensures keys[k] in Ticked(bombs, keys[..k]) && Ticked(bombs, keys[..k])[keys[k]] == bombs[keys[k]]
    ensures keys[k] in TickAll(bombs) && TickAll(bombs)[keys[k]] == Tick(bombs[keys[k]])
    ensures Ticked(bombs, keys[..k + 1]) == Ticked(bombs, keys[..k])[keys[k] := Tick(bombs[keys[k]])]
  {
    assert keys[..k + 1] == keys[..k] + [keys[k]];
  }

  lemma TickedNone(bombs: map<u32, Bomb>)
    ensures TickAll(bombs).Keys == bombs.Keys
    ensures Ticked(bombs, []) == bombs && Ticked(bombs, Sorted32(bombs.Keys)) == TickAll(bombs)
  {
  }

  function DueSet(bombs: map<u32, Bomb>, keys: seq<u32>): (r: set<u32>)
    ensures r <= bombs.Keys && forall id :: id in r ==> id in keys
  {
    set id | id in bombs && bombs[id].timer == 0 && id in keys
  }

  lemma DueSetNext(bombs: map<u32, Bomb>, keys: seq<u32>, k: nat)
    requires k < |keys| && keys[k] in bombs
    ensures DueSet(bombs, keys[..k + 1]) ==
            DueSet(bombs, keys[..k]) + if bombs[keys[k]].timer == 0 then {keys[k]} else {}
  {
    assert keys[..k + 1] == keys[..k] + [keys[k]];
  }

  /** The bombs among `keys` that expire, in order. */
  function Due(bombs: map<u32, Bomb>, keys: seq<u32>): (r: seq<u32>)
    ensures forall i :: 0 <= i < |r| ==> r[i] in bombs
  {
    Sorted32(DueSet(bombs, keys))
  }

  lemma DueNext(bombs: map<u32, Bomb>, keys: seq<u32>, k: nat)
    requires Ascending(keys) && k < |keys| && keys[k] in bombs
    ensures Due(bombs, keys[..k + 1]) ==
            if bombs[keys[k]].timer == 0 then Due(bombs, keys[..k]) + [keys[k]] else Due(bombs, keys[..k])
  {
    hide DueSet, Sorted;
    var done := DueSet(bombs, keys[..k]);
    DueSetNext(bombs, keys, k);
    if bombs[keys[k]].timer == 0 {
      forall x | x in done ensures x < keys[k] {
        var j :| 0 <= j < k && keys[j] == x;
      }
      SortedAppend(done, keys[k]);
    }
  }

  lemma DueEnds(bombs: map<u32, Bomb>, keys: seq<u32>)
    requires forall id :: id in bombs ==> id in keys
    ensures Due(bombs, []) == [] && Due(bombs, keys) == Sorted32(Expired(bombs))
  {
    assert DueSet(bombs, keys) == Expired(bombs);
    assert DueSet(bombs, []) == {};
  }

  /** An explosion does not look at the bombs. */
  lemma ExplodeIgnoresBombs(p: Params, g: Game, bombs: map<u32, Bomb>, id: u32, o: Position)
    requires g.turn < |g.turns|
    ensures Explode(p, g.(bombs := bombs), id, o) == Explode(p, g, id, o).(bombs := bombs)
  {
  }

  lemma ExplodeAllNone(p: Params, g: Game)
    requires g.turn < |g.turns|
    ensures ExplodeAll(p, g, []) == g
  {
  }

  lemma ExplodeAllNext(p: Params, g: Game, ids: seq<u32>, id: u32)
    requires g.turn < |g.turns| && id in g.bombs && forall i :: 0 <= i < |ids| ==> ids[i] in g.bombs
    ensures ExplodeAll(p, g, ids + [id]) == Explode(p, ExplodeAll(p, g, ids), id, g.bombs[id].position)
  {
    assert (ids + [id])[..|ids|] == ids;
  }
}
