/** What one explosion reaches. The cells are listed in the order the engine visits them
    (game-engine.cpp:103-213); `InBlast` states the same thing as plane geometry, without arms,
    steps or wrap-around, and the lemmas connect the two. */
module Blast {
  import opened Types
  import opened Ordered

  datatype Params = Params(serverName: seq<u8>, playersCount: u8, sizeX: u16, sizeY: u16, gameLength: u16,
                           explosionRadius: u16, bombTimer: u16, initialBlocks: u16)
  {
    /** A zero board side divides by zero (game-engine.cpp:540-541), a radius of 65535 keeps the
        uint16_t loop at game-engine.cpp:128 running forever, and no game starts without a player. */
    predicate Valid() {
      playersCount >= 1 && sizeX >= 1 && sizeY >= 1 && explosionRadius < 0xFFFF
    }
  }

  predicate OnBoard(p: Params, c: Position) {
    c.x < p.sizeX && c.y < p.sizeY
  }

  /** The cell `i` uint16_t steps away in direction `d`. */
  function Cell(o: Position, d: u8, i: u16): Position {
    if d == UP then Position(o.x, Add16(o.y, i))
    else if d == DOWN then Position(o.x, Sub16(o.y, i))
    else if d == LEFT then Position(Sub16(o.x, i), o.y)
    else if d == RIGHT then Position(Add16(o.x, i), o.y)
    else o
  }

  /** The first `n` cells of the arm are on the board and hold no block: the arm's go-flag. */
  predicate Open(p: Params, blocks: set<Position>, o: Position, d: u8, n: u16) {
    forall k: u16 :: 1 <= k <= n ==> OnBoard(p, Cell(o, d, k)) && Cell(o, d, k) !in blocks
  }

  function Arm(p: Params, blocks: set<Position>, o: Position, d: u8, i: u16): seq<Position>
    requires i >= 1
  {
    if Open(p, blocks, o, d, i - 1) && OnBoard(p, Cell(o, d, i)) then [Cell(o, d, i)] else []
  }

  function Ring(p: Params, blocks: set<Position>, o: Position, i: u16): seq<Position>
    requires i >= 1
  {
    Arm(p, blocks, o, DOWN, i) + Arm(p, blocks, o, UP, i) + Arm(p, blocks, o, LEFT, i) + Arm(p, blocks, o, RIGHT, i)
  }

  function Rings(p: Params, blocks: set<Position>, o: Position, n: u16): seq<Position> {
    if n == 0 then [] else Rings(p, blocks, o, n - 1) + Ring(p, blocks, o, n)
  }

  /** Every cell the explosion at `o` visits, in visiting order. */
  function Visited(p: Params, blocks: set<Position>, o: Position): seq<Position> {
    [o] + if o in blocks then [] else Rings(p, blocks, o, p.explosionRadius)
  }

  function RobotsAt(positions: map<u8, Position>, c: Position): set<u8> {
    set q | q in positions && positions[q] == c
  }

  /** Robots standing on the cells, cell by cell, ascending id within a cell. */
  function RobotsOn(positions: map<u8, Position>, cells: seq<Position>): seq<u8> {
    if cells == [] then [] else
      RobotsOn(positions, cells[..|cells| - 1]) + Sorted8(RobotsAt(positions, cells[|cells| - 1]))
  }

  function BlockAt(blocks: set<Position>, c: Position): seq<Position> {
    if c in blocks then [c] else []
  }

  function BlocksOn(blocks: set<Position>, cells: seq<Position>): seq<Position> {
    if cells == [] then [] else
      BlocksOn(blocks, cells[..|cells| - 1]) + BlockAt(blocks, cells[|cells| - 1])
  }

  function Explosion(p: Params, positions: map<u8, Position>, blocks: set<Position>, id: u32, o: Position): (e: Event)
    ensures e.BombExploded? && e.id == id
  {
    BombExploded(id, RobotsOn(positions, Visited(p, blocks, o)), BlocksOn(blocks, Visited(p, blocks, o)))
  }

  // ---------- Lists over concatenated cells ----------

  lemma {:induction false} RobotsOnConcat(positions: map<u8, Position>, a: seq<Position>, b: seq<Position>)
    ensures RobotsOn(positions, a + b) == RobotsOn(positions, a) + RobotsOn(positions, b)
  {
    if b == [] {
      assert a + b == a;
    } else {
      var n := |b| - 1;
      LastOfConcat(a, b);
      RobotsOnConcat(positions, a, b[..n]);
      Associates(RobotsOn(positions, a), RobotsOn(positions, b[..n]), Sorted8(RobotsAt(positions, b[n])));
    }
  }

  lemma {:induction false} BlocksOnConcat(blocks: set<Position>, a: seq<Position>, b: seq<Position>)
    ensures BlocksOn(blocks, a + b) == BlocksOn(blocks, a) + BlocksOn(blocks, b)
  {
    if b == [] {
      assert a + b == a;
    } else {
      var n := |b| - 1;
      LastOfConcat(a, b);
      BlocksOnConcat(blocks, a, b[..n]);
      Associates(BlocksOn(blocks, a), BlocksOn(blocks, b[..n]), BlockAt(blocks, b[n]));
    }
  }

  lemma {:induction false} RobotsOnMembers(positions: map<u8, Position>, cells: seq<Position>, q: u8)
    ensures q in RobotsOn(positions, cells) <==> q in positions && positions[q] in cells
  {
    if cells != [] {
      var n := |cells| - 1;
      assert cells == cells[..n] + [cells[n]];
      RobotsOnMembers(positions, cells[..n], q);
    }
  }

  lemma {:induction false} BlocksOnMembers(blocks: set<Position>, cells: seq<Position>, c: Position)
    ensures c in BlocksOn(blocks, cells) <==> c in blocks && c in cells
  {
    if cells != [] {
      var n := |cells| - 1;
      assert cells == cells[..n] + [cells[n]];
      BlocksOnMembers(blocks, cells[..n], c);
    }
  }

  // ---------- Geometry ----------

  predicate Between(a: int, b: int, c: int) {
    a < b < c || c < b < a
  }

  /** `b` lies on the open segment from `a` to `c` of a common row or column. */
  predicate StrictlyBetween(a: Position, b: Position, c: Position) {
    (a.x == b.x == c.x && Between(a.y, b.y, c.y)) || (a.y == b.y == c.y && Between(a.x, b.x, c.x))
  }

  function Abs(n: int): nat { if n < 0 then -n else n }

  predicate Aligned(a: Position, c: Position, radius: nat) {
    (a.x == c.x && 1 <= Abs(c.y - a.y) <= radius) || (a.y == c.y && 1 <= Abs(c.x - a.x) <= radius)
  }

  /** No block lies strictly between `o` and `c`. */
  ghost predicate Unscreened(p: Params, blocks: set<Position>, o: Position, c: Position) {
    forall b :: b in blocks && OnBoard(p, b) ==> !StrictlyBetween(o, b, c)
  }

  /** The rules' reading of an explosion at `o`: its own cell, and, unless that cell holds a block,
      the on-board cells of its row and column within the radius with no block strictly between. */
  ghost predicate InBlast(p: Params, blocks: set<Position>, o: Position, c: Position) {
    c == o ||
    (o !in blocks && OnBoard(p, c) && Aligned(o, c, p.explosionRadius) && Unscreened(p, blocks, o, c))
  }

  /** The step from `o` to `c` read as a plain integer displacement. */
  predicate Straight(o: Position, d: u8, i: nat, c: Position) {
    (d == UP && c.x == o.x && c.y == o.y + i) || (d == DOWN && c.x == o.x && c.y == o.y - i) ||
    (d == LEFT && c.y == o.y && c.x == o.x - i) || (d == RIGHT && c.y == o.y && c.x == o.x + i)
  }

  predicate IsDirection(d: u8) { d == UP || d == RIGHT || d == DOWN || d == LEFT }

  /** No arm wraps: its first off-board cell stops it before a uint16_t step comes round to the
      opposite edge. */
  lemma ArmsNeverWrap(p: Params, blocks: set<Position>, o: Position, d: u8, i: u16)
    requires OnBoard(p, o) && IsDirection(d) && 1 <= i
    ensures Open(p, blocks, o, d, i - 1) && OnBoard(p, Cell(o, d, i)) ==> Straight(o, d, i, Cell(o, d, i))
  {
    if Open(p, blocks, o, d, i - 1) && OnBoard(p, Cell(o, d, i)) {
      // the first step off the board in this direction
      var k := if d == UP then p.sizeY - o.y else if d == DOWN then o.y + 1
               else if d == LEFT then o.x + 1 else p.sizeX - o.x;
      assert !OnBoard(p, Cell(o, d, k));
      assert i < k;
    }
  }

  lemma {:induction false} RingsMembers(p: Params, blocks: set<Position>, o: Position, n: u16, c: Position)
    ensures c in Rings(p, blocks, o, n) <==>
            exists d: u8, i: u16 :: IsDirection(d) && 1 <= i <= n && c in Arm(p, blocks, o, d, i)
  {
    if n > 0 {
      RingsMembers(p, blocks, o, n - 1, c);
    }
  }

  lemma StepBetween(o: Position, d: u8, i: u16, c: Position, b: Position) returns (k: u16)
    requires Straight(o, d, i, c) && StrictlyBetween(o, b, c)
    ensures 1 <= k < i && b == Cell(o, d, k)
  {
    k := Abs(b.x - o.x) + Abs(b.y - o.y);
  }

  lemma ArmIsUnscreened(p: Params, blocks: set<Position>, o: Position, d: u8, i: u16)
    requires OnBoard(p, o) && IsDirection(d) && 1 <= i
    requires Open(p, blocks, o, d, i - 1) && OnBoard(p, Cell(o, d, i))
    ensures Unscreened(p, blocks, o, Cell(o, d, i))
  {
    var c := Cell(o, d, i);
    ArmsNeverWrap(p, blocks, o, d, i);
    forall b | b in blocks && OnBoard(p, b) ensures !StrictlyBetween(o, b, c) {
      if StrictlyBetween(o, b, c) {
        var k := StepBetween(o, d, i, c, b);
      }
    }
  }

  lemma UnscreenedIsOpen(p: Params, blocks: set<Position>, o: Position, d: u8, i: u16, c: Position)
    requires OnBoard(p, o) && IsDirection(d) && 1 <= i
    requires Straight(o, d, i, c) && OnBoard(p, c) && Unscreened(p, blocks, o, c)
    ensures c == Cell(o, d, i) && Open(p, blocks, o, d, i - 1)
  {
    forall k: u16 | 1 <= k <= i - 1
      ensures OnBoard(p, Cell(o, d, k)) && Cell(o, d, k) !in blocks
    {
      var b := Cell(o, d, k);
      assert Straight(o, d, k, b);
      assert OnBoard(p, b) && StrictlyBetween(o, b, c);
    }
  }

  /** The arms reach exactly the straight on-board cells that no block screens. */
  lemma ArmCell(p: Params, blocks: set<Position>, o: Position, d: u8, i: u16, c: Position)
    requires OnBoard(p, o) && IsDirection(d) && 1 <= i
    ensures c in Arm(p, blocks, o, d, i) <==> Straight(o, d, i, c) && OnBoard(p, c) && Unscreened(p, blocks, o, c)
  {
    if c in Arm(p, blocks, o, d, i) {
      ArmsNeverWrap(p, blocks, o, d, i);
      ArmIsUnscreened(p, blocks, o, d, i);
    }
    if Straight(o, d, i, c) && OnBoard(p, c) && Unscreened(p, blocks, o, c) {
      UnscreenedIsOpen(p, blocks, o, d, i, c);
    }
  }

  lemma VisitedIsBlast(p: Params, blocks: set<Position>, o: Position, c: Position)
    requires OnBoard(p, o)
    ensures c in Visited(p, blocks, o) <==> InBlast(p, blocks, o, c)
  {
    if c != o && o !in blocks {
      RingsMembers(p, blocks, o, p.explosionRadius, c);
      forall d: u8, i: u16 | IsDirection(d) && 1 <= i <= p.explosionRadius
        ensures c in Arm(p, blocks, o, d, i) <==>
                Straight(o, d, i, c) && OnBoard(p, c) && Unscreened(p, blocks, o, c)
      {
        ArmCell(p, blocks, o, d, i, c);
      }
      if InBlast(p, blocks, o, c) {
        var d := if c.y > o.y then UP else if c.y < o.y then DOWN else if c.x < o.x then LEFT else RIGHT;
        var i: u16 := Abs(c.x - o.x) + Abs(c.y - o.y);
        assert Straight(o, d, i, c);
        assert c in Arm(p, blocks, o, d, i);
      }
    }
  }

  /** An explosion's lists hold exactly the robots and the blocks in its blast. */
  lemma ExplosionIsExact(p: Params, positions: map<u8, Position>, blocks: set<Position>, id: u32, o: Position)
    requires OnBoard(p, o)
    ensures var e := Explosion(p, positions, blocks, id, o);
            (forall q: u8 :: q in e.robots <==> q in positions && InBlast(p, blocks, o, positions[q])) &&
            (forall c :: c in e.blocks <==> c in blocks && InBlast(p, blocks, o, c))
  {
    var cells := Visited(p, blocks, o);
    forall q: u8
      ensures q in RobotsOn(positions, cells) <==> q in positions && InBlast(p, blocks, o, positions[q])
    {
      RobotsOnMembers(positions, cells, q);
      if q in positions { VisitedIsBlast(p, blocks, o, positions[q]); }
    }
    forall c ensures c in BlocksOn(blocks, cells) <==> c in blocks && InBlast(p, blocks, o, c) {
      BlocksOnMembers(blocks, cells, c);
      VisitedIsBlast(p, blocks, o, c);
    }
  }

  // ---------- No duplicates, at most four blocks ----------

  function Distance(a: Position, b: Position): nat { Abs(a.x - b.x) + Abs(a.y - b.y) }

  lemma RingCells(p: Params, blocks: set<Position>, o: Position, n: u16)
    requires OnBoard(p, o) && n >= 1
    ensures Distinct(Ring(p, blocks, o, n))
    ensures forall c :: c in Ring(p, blocks, o, n) ==> Distance(c, o) == n
  {
    ArmsNeverWrap(p, blocks, o, DOWN, n);
    ArmsNeverWrap(p, blocks, o, UP, n);
    ArmsNeverWrap(p, blocks, o, LEFT, n);
    ArmsNeverWrap(p, blocks, o, RIGHT, n);
  }

  lemma {:induction false} RingsCells(p: Params, blocks: set<Position>, o: Position, n: u16)
    requires OnBoard(p, o)
    ensures Distinct(Rings(p, blocks, o, n))
    ensures forall c :: c in Rings(p, blocks, o, n) ==> 1 <= Distance(c, o) <= n
  {
    if n > 0 {
      RingsCells(p, blocks, o, n - 1);
      RingCells(p, blocks, o, n);
      DistinctConcat(Rings(p, blocks, o, n - 1), Ring(p, blocks, o, n));
    }
  }

  lemma DistinctConcat<T>(a: seq<T>, b: seq<T>)
    requires Distinct(a) && Distinct(b)
    requires forall x :: x in a ==> x !in b
    ensures Distinct(a + b)
  {
    forall i, j | 0 <= i < j < |a + b| ensures (a + b)[i] != (a + b)[j] {
      if i < |a| <= j { assert a[i] in a && b[j - |a|] in b; }
    }
  }

  lemma {:induction false} RobotsOnDistinct(positions: map<u8, Position>, cells: seq<Position>)
    requires Distinct(cells)
    ensures Distinct(RobotsOn(positions, cells))
  {
    if cells != [] {
      var n := |cells| - 1;
      RobotsOnDistinct(positions, cells[..n]);
      forall q | q in RobotsOn(positions, cells[..n]) ensures q !in Sorted8(RobotsAt(positions, cells[n])) {
        RobotsOnMembers(positions, cells[..n], q);
      }
      DistinctConcat(RobotsOn(positions, cells[..n]), Sorted8(RobotsAt(positions, cells[n])));
    }
  }

  lemma {:induction false} BlocksOnDistinct(blocks: set<Position>, cells: seq<Position>)
    requires Distinct(cells)
    ensures Distinct(BlocksOn(blocks, cells))
  {
    if cells != [] {
      var n := |cells| - 1;
      BlocksOnDistinct(blocks, cells[..n]);
      BlocksOnMembers(blocks, cells[..n], cells[n]);
    }
  }

  ghost function OpenArms(p: Params, blocks: set<Position>, o: Position, n: u16): nat {
    Flag(Open(p, blocks, o, DOWN, n)) + Flag(Open(p, blocks, o, UP, n)) +
    Flag(Open(p, blocks, o, LEFT, n)) + Flag(Open(p, blocks, o, RIGHT, n))
  }

  lemma ArmBlocks(p: Params, blocks: set<Position>, o: Position, d: u8, i: u16)
    requires i >= 1
    ensures |BlocksOn(blocks, Arm(p, blocks, o, d, i))| + Flag(Open(p, blocks, o, d, i))
            <= Flag(Open(p, blocks, o, d, i - 1))
  {
    hide Cell, OnBoard;
    if Arm(p, blocks, o, d, i) != [] {
      OneCell(blocks, Cell(o, d, i));
    }
  }

  lemma OneCell(blocks: set<Position>, c: Position)
    ensures BlocksOn(blocks, [c]) == BlockAt(blocks, c)
  {
    assert [c][..0] == [];
  }

  lemma RingBlocks(p: Params, blocks: set<Position>, o: Position, n: u16)
    requires n >= 1
    ensures |BlocksOn(blocks, Ring(p, blocks, o, n))| + OpenArms(p, blocks, o, n) <= OpenArms(p, blocks, o, n - 1)
  {
    var d, u := Arm(p, blocks, o, DOWN, n), Arm(p, blocks, o, UP, n);
    var l, r := Arm(p, blocks, o, LEFT, n), Arm(p, blocks, o, RIGHT, n);
    ArmBlocks(p, blocks, o, DOWN, n);
    ArmBlocks(p, blocks, o, UP, n);
    ArmBlocks(p, blocks, o, LEFT, n);
    ArmBlocks(p, blocks, o, RIGHT, n);
    hide Arm, Open, BlocksOn;
    BlocksOnConcat(blocks, d + u + l, r);
    BlocksOnConcat(blocks, d + u, l);
    BlocksOnConcat(blocks, d, u);
  }

  lemma FourArms(p: Params, blocks: set<Position>, o: Position)
    ensures |BlocksOn(blocks, Rings(p, blocks, o, 0))| + OpenArms(p, blocks, o, 0) <= 4
  {
    hide Open;
  }

  /** Each block found closes an arm for good. */
  lemma {:induction false} RingsBlocks(p: Params, blocks: set<Position>, o: Position, n: u16)
    ensures |BlocksOn(blocks, Rings(p, blocks, o, n))| + OpenArms(p, blocks, o, n) <= 4
  {
    hide Ring, Open, BlocksOn, OpenArms;
    if n > 0 {
      RingsBlocks(p, blocks, o, n - 1);
      RingBlocks(p, blocks, o, n);
      BlocksOnConcat(blocks, Rings(p, blocks, o, n - 1), Ring(p, blocks, o, n));
    } else {
      FourArms(p, blocks, o);
    }
  }

  /** The lists lose nothing when a client reads them into sets, and hold at most four blocks:
      exactly the bomb's own cell when that cell is a block. */
  lemma ExplosionLists(p: Params, positions: map<u8, Position>, blocks: set<Position>, id: u32, o: Position)
    requires OnBoard(p, o)
    ensures var e := Explosion(p, positions, blocks, id, o);
            Distinct(e.robots) && Distinct(e.blocks) && |e.blocks| <= 4 &&
            (o in blocks ==> e.blocks == [o])
  {
    var cells := Visited(p, blocks, o);
    var rings := if o in blocks then [] else Rings(p, blocks, o, p.explosionRadius);
    RingsCells(p, blocks, o, p.explosionRadius);
    DistinctConcat([o], rings);
    RobotsOnDistinct(positions, cells);
    BlocksOnDistinct(blocks, cells);
    BlocksOnConcat(blocks, [o], rings);
    assert [o][..0] == [];
    RingsBlocks(p, blocks, o, p.explosionRadius);
  }

  // ---------- The order of the lists ----------

  /** Nearest cells first, and of equally near ones the one below, above, to the left, to the right. */
  function Rank(o: Position, c: Position): nat {
    if c == o then 0
    else 4 * Distance(c, o) + if c.y < o.y then 0 else if c.y > o.y then 1 else if c.x < o.x then 2 else 3
  }

  predicate Climbs(o: Position, cells: seq<Position>) {
    forall i, j :: 0 <= i < j < |cells| ==> Rank(o, cells[i]) < Rank(o, cells[j])
  }

  /** Robots by the rank of their cells, those on one cell by id. */
  predicate RobotsClimb(o: Position, positions: map<u8, Position>, robots: seq<u8>) {
    && (forall i :: 0 <= i < |robots| ==> robots[i] in positions)
    && forall i, j :: 0 <= i < j < |robots| ==>
         var a, b := Rank(o, positions[robots[i]]), Rank(o, positions[robots[j]]);
         a < b || (a == b && robots[i] < robots[j])
  }

  lemma ArmRank(p: Params, blocks: set<Position>, o: Position, d: u8, n: u16)
    requires OnBoard(p, o) && IsDirection(d) && n >= 1
    ensures |Arm(p, blocks, o, d, n)| <= 1
    ensures forall c :: c in Arm(p, blocks, o, d, n) ==>
              Rank(o, c) == 4 * n + if d == DOWN then 0 else if d == UP then 1 else if d == LEFT then 2 else 3
  {
    ArmsNeverWrap(p, blocks, o, d, n);
  }

  lemma RingClimbs(p: Params, blocks: set<Position>, o: Position, n: u16)
    requires OnBoard(p, o) && n >= 1
    ensures Climbs(o, Ring(p, blocks, o, n))
    ensures forall c :: c in Ring(p, blocks, o, n) ==> 4 * n <= Rank(o, c) < 4 * n + 4
  {
    ArmRank(p, blocks, o, DOWN, n);
    ArmRank(p, blocks, o, UP, n);
    ArmRank(p, blocks, o, LEFT, n);
    ArmRank(p, blocks, o, RIGHT, n);
    hide Arm, Rank;
    ClimbsConcat(o, Arm(p, blocks, o, DOWN, n), Arm(p, blocks, o, UP, n));
    var low := Arm(p, blocks, o, DOWN, n) + Arm(p, blocks, o, UP, n);
    ClimbsConcat(o, low, Arm(p, blocks, o, LEFT, n));
    ClimbsConcat(o, low + Arm(p, blocks, o, LEFT, n), Arm(p, blocks, o, RIGHT, n));
  }

  lemma ClimbsConcat(o: Position, a: seq<Position>, b: seq<Position>)
    requires Climbs(o, a) && Climbs(o, b)
    requires forall x, y :: x in a && y in b ==> Rank(o, x) < Rank(o, y)
    ensures Climbs(o, a + b)
  {
    hide Rank;
  }

  lemma {:induction false} RingsClimb(p: Params, blocks: set<Position>, o: Position, n: u16)
    requires OnBoard(p, o)
    ensures Climbs(o, Rings(p, blocks, o, n))
    ensures forall c :: c in Rings(p, blocks, o, n) ==> 4 <= Rank(o, c) < 4 * n + 4
  {
    if n > 0 {
      hide Ring, Rank, Climbs;
      RingsClimb(p, blocks, o, n - 1);
      RingClimbs(p, blocks, o, n);
      ClimbsConcat(o, Rings(p, blocks, o, n - 1), Ring(p, blocks, o, n));
    } else {
      assert Rings(p, blocks, o, 0) == [];
    }
  }

  lemma {:induction false} BlocksClimb(blocks: set<Position>, o: Position, cells: seq<Position>)
    requires Climbs(o, cells)
    ensures Climbs(o, BlocksOn(blocks, cells))
  {
    if cells != [] {
      hide Rank;
      var n := |cells| - 1;
      BlocksClimb(blocks, o, cells[..n]);
      forall x, y | x in BlocksOn(blocks, cells[..n]) && y in BlockAt(blocks, cells[n])
        ensures Rank(o, x) < Rank(o, y)
      {
        BlocksOnMembers(blocks, cells[..n], x);
        var i :| 0 <= i < n && cells[..n][i] == x;
      }
      ClimbsConcat(o, BlocksOn(blocks, cells[..n]), BlockAt(blocks, cells[n]));
    }
  }

  lemma {:induction false} RobotsOnClimb(positions: map<u8, Position>, o: Position, cells: seq<Position>)
    requires Climbs(o, cells)
    ensures RobotsClimb(o, positions, RobotsOn(positions, cells))
  {
    if cells != [] {
      hide Rank, RobotsOn, Sorted;
      var n := |cells| - 1;
      RobotsOnClimb(positions, o, cells[..n]);
      var far, near := Sorted8(RobotsAt(positions, cells[n])), RobotsOn(positions, cells[..n]);
      forall q | q in near ensures q in positions && Rank(o, positions[q]) < Rank(o, cells[n]) {
        RobotsOnMembers(positions, cells[..n], q);
        var i :| 0 <= i < n && cells[..n][i] == positions[q];
      }
      RobotsConcat(o, positions, near, far, cells[n]);
      LastCell(positions, cells);
    }
  }

  lemma LastCell(positions: map<u8, Position>, cells: seq<Position>)
    requires cells != []
    ensures RobotsOn(positions, cells) ==
            RobotsOn(positions, cells[..|cells| - 1]) + Sorted8(RobotsAt(positions, cells[|cells| - 1]))
  {
  }

  lemma RobotsConcat(o: Position, positions: map<u8, Position>, near: seq<u8>, far: seq<u8>, c: Position)
    requires RobotsClimb(o, positions, near) && Ascending(far)
    requires forall q :: q in far ==> q in positions && positions[q] == c
    requires forall q :: q in near ==> q in positions && Rank(o, positions[q]) < Rank(o, c)
    ensures RobotsClimb(o, positions, near + far)
  {
    hide Rank;
  }

  /** The lists are in the order of the rank, so the event is the same whoever computes it. */
  lemma ExplosionOrder(p: Params, positions: map<u8, Position>, blocks: set<Position>, id: u32, o: Position)
    requires OnBoard(p, o)
    ensures var e := Explosion(p, positions, blocks, id, o);
            RobotsClimb(o, positions, e.robots) && Climbs(o, e.blocks)
  {
    hide Rank, RobotsClimb, Rings;
    var cells := Visited(p, blocks, o);
    var rings := if o in blocks then [] else Rings(p, blocks, o, p.explosionRadius);
    RingsClimb(p, blocks, o, p.explosionRadius);
    OwnRank(o);
    ClimbsConcat(o, [o], rings);
    RobotsOnClimb(positions, o, cells);
    BlocksClimb(blocks, o, cells);
  }

  lemma OwnRank(o: Position)
    ensures Rank(o, o) == 0
  {
  }

  /** The uint16_t counter of the loop at game-engine.cpp:128 after `k` increments. */
  function Counter(k: nat): u16 {
    if k == 0 then 1 else Add16(Counter(k - 1), 1)
  }

  lemma {:induction false} CounterClimbs(k: nat)
    requires k < 0xFFFF
    ensures Counter(k) == k + 1
  {
    if k > 0 { CounterClimbs(k - 1); }
  }

  /** The counter leaves the loop if and only if the radius is below 65535, and then after exactly
      `radius` turns. */
  lemma RadiusLoopEnds(radius: u16)
    ensures (exists k :: !(Counter(k) <= radius)) <==> radius < 0xFFFF
    ensures radius < 0xFFFF ==> !(Counter(radius) <= radius) && forall k: nat :: k < radius ==> Counter(k) <= radius
  {
    if radius < 0xFFFF {
      CounterClimbs(radius);
      assert !(Counter(radius) <= radius);
      forall k: nat | k < radius ensures Counter(k) <= radius { CounterClimbs(k); }
    }
  }
}
