/** The ordering that std::set<position_t> is given (game-messages.cpp:3-5) compares one cell's x with
    the other's y. It is an ordering exactly on sets of cells that lie in separate bands, and exactly
    there do the server's and the client's sets of blocks behave as sets, which is how the other
    modules model them. */
module PositionOrder {
  import opened Types
  import opened Blast

  predicate Less(a: Position, b: Position) {
    a.x < b.y || (a.x == b.x && a.y < b.y)
  }

  /** What std::set needs to keep distinct cells apart and find each again. */
  ghost predicate Orders(s: set<Position>) {
    && (forall a :: a in s ==> !Less(a, a))
    && (forall a, b :: a in s && b in s && a != b ==> (Less(a, b) <==> !Less(b, a)))
    && (forall a, b, c :: a in s && b in s && c in s && Less(a, b) && Less(b, c) ==> Less(a, c))
  }

  /** No cell lies above the diagonal, and columns do not overlap when read as intervals y..x. */
  ghost predicate Banded(s: set<Position>) {
    && (forall a :: a in s ==> a.y <= a.x)
    && (forall a, b :: a in s && b in s && a.x < b.x ==> a.x < b.y)
  }

  lemma OrdersExactlyBands(s: set<Position>)
    ensures Orders(s) <==> Banded(s)
  {
    if Orders(s) {
      forall a, b | a in s && b in s && a.x < b.x ensures a.x < b.y {
        assert !Less(a, a) && !Less(b, b);
        assert Less(a, b) <==> !Less(b, a);
      }
      forall a | a in s ensures a.y <= a.x { assert !Less(a, a); }
    }
  }

  /** So no board of two rows is ordered: its cell (0, 1) comes before itself. */
  lemma TwoRowsAreNotOrdered(s: set<Position>)
    requires Position(0, 1) in s
    ensures !Orders(s)
  {
    assert Less(Position(0, 1), Position(0, 1));
  }

  lemma BandedSubset(s: set<Position>, all: set<Position>)
    requires Banded(all) && s <= all
    ensures Banded(s)
  {
  }

  // ---------- the tree behind std::set ----------

  /** A search tree of any shape; rebalancing changes the shape and not the keys. */
  datatype Tree = Leaf | Node(left: Tree, key: Position, right: Tree)

  function Cells(t: Tree): set<Position> {
    match t
    case Leaf => {}
    case Node(l, k, r) => Cells(l) + {k} + Cells(r)
  }

  /** Smaller keys to the left, greater ones to the right. */
  ghost predicate SearchTree(t: Tree) {
    match t
    case Leaf => true
    case Node(l, k, r) =>
      && SearchTree(l) && SearchTree(r)
      && (forall x :: x in Cells(l) ==> Less(x, k)) && (forall x :: x in Cells(r) ==> Less(k, x))
  }

  /** std::set::count: down to the first key not less than `c`, which must not be greater either. */
  function Find(t: Tree, c: Position, least: Option<Position>): bool {
    match t
    case Leaf => least.Some? && !Less(c, least.value)
    case Node(l, k, r) => if Less(k, c) then Find(r, c, least) else Find(l, c, Some(k))
  }

  /** std::set::insert: down to a leaf; the key before it must be less than `c`. */
  function Put(t: Tree, c: Position, before: Option<Position>): Tree {
    match t
    case Leaf => if before.None? || Less(before.value, c) then Node(Leaf, c, Leaf) else Leaf
    case Node(l, k, r) => if Less(c, k) then Node(Put(l, c, before), k, r) else Node(l, k, Put(r, c, Some(k)))
  }

  /** std::set::erase by key. */
  function Drop(t: Tree, c: Position): Tree {
    match t
    case Leaf => Leaf
    case Node(l, k, r) =>
      if Less(k, c) then Node(l, k, Drop(r, c))
      else if Less(c, k) then Node(Drop(l, c), k, r)
      else Join(l, r)
  }

  function Join(l: Tree, r: Tree): Tree {
    match l
    case Leaf => r
    case Node(a, k, b) => Node(a, k, Join(b, r))
  }

  lemma OrdersSubset(s: set<Position>, all: set<Position>)
    requires Orders(all) && s <= all
    ensures Orders(s)
  {
  }

  function Maybe(c: Option<Position>): set<Position> { if c.Some? then {c.value} else {} }

  lemma {:induction false} FindIsMember(t: Tree, c: Position, least: Option<Position>)
    requires SearchTree(t) && Orders(Cells(t) + {c} + Maybe(least))
    requires least.Some? ==> !Less(least.value, c) && forall x :: x in Cells(t) ==> Less(x, least.value)
    ensures Find(t, c, least) <==> c in Cells(t) || least == Some(c)
  {
    match t
    case Leaf =>
    case Node(l, k, r) =>
      var all := Cells(t) + {c} + Maybe(least);
      if Less(k, c) {
        OrdersSubset(Cells(r) + {c} + Maybe(least), all);
        FindIsMember(r, c, least);
      } else {
        OrdersSubset(Cells(l) + {c} + {k}, all);
        FindIsMember(l, c, Some(k));
      }
  }

  lemma Comparable(s: set<Position>, a: Position, b: Position)
    requires Orders(s) && a in s && b in s
    ensures !Less(a, b) && a != b ==> Less(b, a)
  {
  }

  lemma {:induction false} PutAdds(t: Tree, c: Position, before: Option<Position>)
    requires SearchTree(t) && Orders(Cells(t) + {c} + Maybe(before))
    requires before.Some? ==> !Less(c, before.value) && forall x :: x in Cells(t) ==> Less(before.value, x)
    ensures SearchTree(Put(t, c, before))
    ensures Cells(Put(t, c, before)) == Cells(t) + if before == Some(c) then {} else {c}
  {
    hide Orders, Less;
    var all := Cells(t) + {c} + Maybe(before);
    match t
    case Leaf =>
      if before.Some? {
        Comparable(all, c, before.value);
        Irreflexive(all, c);
      }
    case Node(l, k, r) =>
      Comparable(all, c, k);
      if Less(c, k) {
        OrdersSubset(Cells(l) + {c} + Maybe(before), all);
        PutAdds(l, c, before);
      } else {
        OrdersSubset(Cells(r) + {c} + {k}, all);
        PutAdds(r, c, Some(k));
      }
  }

  lemma Irreflexive(s: set<Position>, c: Position)
    requires Orders(s) && c in s
    ensures !Less(c, c)
  {
  }

  lemma {:induction false} JoinKeeps(l: Tree, r: Tree)
    requires SearchTree(l) && SearchTree(r) && Orders(Cells(l) + Cells(r))
    requires forall x, y :: x in Cells(l) && y in Cells(r) ==> Less(x, y)
    ensures SearchTree(Join(l, r)) && Cells(Join(l, r)) == Cells(l) + Cells(r)
  {
    match l
    case Leaf =>
    case Node(a, k, b) =>
      OrdersSubset(Cells(b) + Cells(r), Cells(l) + Cells(r));
      JoinKeeps(b, r);
  }

  lemma {:induction false} DropRemoves(t: Tree, c: Position)
    requires SearchTree(t) && Orders(Cells(t) + {c})
    ensures SearchTree(Drop(t, c)) && Cells(Drop(t, c)) == Cells(t) - {c}
  {
    match t
    case Leaf =>
    case Node(l, k, r) =>
      var all := Cells(t) + {c};
      if Less(k, c) {
        OrdersSubset(Cells(r) + {c}, all);
        DropRemoves(r, c);
      } else if Less(c, k) {
        OrdersSubset(Cells(l) + {c}, all);
        DropRemoves(l, c);
      } else {
        OrdersSubset(Cells(l) + Cells(r), all);
        JoinKeeps(l, r);
      }
  }

  // ---------- rebalancing ----------

  function InOrder(t: Tree): seq<Position> {
    match t
    case Leaf => []
    case Node(l, k, r) => InOrder(l) + [k] + InOrder(r)
  }

  ghost predicate Sorted(s: seq<Position>) {
    forall i, j :: 0 <= i < j < |s| ==> Less(s[i], s[j])
  }

  lemma {:induction false} InOrderHasCells(t: Tree)
    ensures Elems(InOrder(t)) == Cells(t)
  {
    match t
    case Leaf =>
    case Node(l, k, r) =>
      InOrderHasCells(l);
      InOrderHasCells(r);
  }

  lemma Across(s: set<Position>, a: set<Position>, k: Position, b: set<Position>)
    requires Orders(s) && a <= s && k in s && b <= s
    requires (forall x :: x in a ==> Less(x, k)) && (forall y :: y in b ==> Less(k, y))
    ensures forall x, y :: x in a && y in b ==> Less(x, y)
  {
    hide Less;
  }

  lemma SortedAround(a: seq<Position>, k: Position, b: seq<Position>)
    requires Sorted(a) && Sorted(b) && (forall x :: x in a ==> Less(x, k)) && (forall y :: y in b ==> Less(k, y))
    requires forall x, y :: x in a && y in b ==> Less(x, y)
    ensures Sorted(a + [k] + b)
  {
    hide Less;
  }

  lemma {:induction false} SearchIsSorted(t: Tree)
    requires SearchTree(t) && Orders(Cells(t))
    ensures Sorted(InOrder(t))
  {
    hide Less, Orders, Sorted;
    match t
    case Leaf => EmptyIsSorted();
    case Node(l, k, r) =>
      OrdersSubset(Cells(l), Cells(t));
      OrdersSubset(Cells(r), Cells(t));
      SearchIsSorted(l);
      SearchIsSorted(r);
      InOrderHasCells(l);
      InOrderHasCells(r);
      Across(Cells(t), Cells(l), k, Cells(r));
      assert forall x :: x in InOrder(l) ==> x in Elems(InOrder(l));
      assert forall x :: x in InOrder(r) ==> x in Elems(InOrder(r));
      SortedAround(InOrder(l), k, InOrder(r));
  }

  lemma EmptyIsSorted()
    ensures Sorted([])
  {
  }

  lemma {:induction false} SortedIsSearch(t: Tree)
    requires Sorted(InOrder(t))
    ensures SearchTree(t)
  {
    match t
    case Leaf =>
    case Node(l, k, r) =>
      var s, n := InOrder(t), |InOrder(l)|;
      assert InOrder(l) == s[..n] && s[n] == k && InOrder(r) == s[n + 1..];
      SortedIsSearch(l);
      SortedIsSearch(r);
      InOrderHasCells(l);
      InOrderHasCells(r);
      assert forall x :: x in Cells(l) ==> x in s[..n];
      assert forall x :: x in Cells(r) ==> x in s[n + 1..];
  }

  /** Rotations keep the keys in their order, and so on ordered keys the search tree. */
  lemma Rebalanced(t: Tree, u: Tree)
    requires SearchTree(t) && Orders(Cells(t)) && InOrder(u) == InOrder(t)
    ensures SearchTree(u) && Cells(u) == Cells(t)
  {
    SearchIsSorted(t);
    SortedIsSearch(u);
    InOrderHasCells(t);
    InOrderHasCells(u);
  }

  // ---------- whole histories of a set of positions ----------

  datatype Op = Insert(cell: Position) | Erase(cell: Position) | Count(cell: Position)

  function TreeAfter(t: Tree, op: Op): Tree {
    match op
    case Insert(c) => Put(t, c, None)
    case Erase(c) => Drop(t, c)
    case Count(_) => t
  }

  function SetAfter(s: set<Position>, op: Op): set<Position> {
    match op
    case Insert(c) => s + {c}
    case Erase(c) => s - {c}
    case Count(_) => s
  }

  /** The trees an empty set goes through, rebalanced at will after every operation. */
  ghost predicate History(ops: seq<Op>, trees: seq<Tree>) {
    && |trees| == |ops| + 1 && trees[0] == Leaf
    && (forall i :: 0 <= i < |ops| ==> InOrder(trees[i + 1]) == InOrder(TreeAfter(trees[i], ops[i])))
  }

  /** The mathematical set after the first `n` operations. */
  function SetAt(ops: seq<Op>, n: nat): set<Position>
    requires n <= |ops|
  {
    if n == 0 then {} else SetAfter(SetAt(ops, n - 1), ops[n - 1])
  }

  /** Every count answers membership. */
  ghost predicate CountsRight(ops: seq<Op>, trees: seq<Tree>)
    requires History(ops, trees)
  {
    forall i :: 0 <= i < |ops| && ops[i].Count? ==>
      (Find(trees[i], ops[i].cell, None) <==> ops[i].cell in SetAt(ops, i))
  }

  /** Each operation's cell and those in the set at that time are banded. */
  ghost predicate AlwaysBanded(ops: seq<Op>) {
    forall i :: 0 <= i < |ops| ==> Banded(SetAt(ops, i) + {ops[i].cell})
  }

  /** One operation on banded cells does to the tree what it does to the set. */
  lemma OpAgrees(t: Tree, op: Op, u: Tree)
    requires SearchTree(t) && Banded(Cells(t) + {op.cell}) && InOrder(u) == InOrder(TreeAfter(t, op))
    ensures SearchTree(u) && Cells(u) == SetAfter(Cells(t), op)
    ensures Find(t, op.cell, None) <==> op.cell in Cells(t)
  {
    hide Banded, Orders, SearchTree, InOrder;
    var all := Cells(t) + {op.cell};
    OrdersExactlyBands(all);
    assert all + Maybe(None) == all;
    FindIsMember(t, op.cell, None);
    match op {
      case Insert(c) => PutAdds(t, c, None);
      case Erase(c) => DropRemoves(t, c);
      case Count(_) =>
    }
    OrdersSubset(SetAfter(Cells(t), op), all);
    Rebalanced(TreeAfter(t, op), u);
  }

  lemma EmptyTree()
    ensures SearchTree(Leaf) && Cells(Leaf) == {}
  {
  }

  /** While each operation's cell is banded with those in the set, the tree holds exactly the set. */
  lemma {:induction false} HoldsTheSet(ops: seq<Op>, trees: seq<Tree>, n: nat)
    requires History(ops, trees) && AlwaysBanded(ops) && n <= |ops|
    ensures SearchTree(trees[n]) && Cells(trees[n]) == SetAt(ops, n)
  {
    hide History, AlwaysBanded, Banded, SearchTree, Cells, TreeAfter, SetAfter, InOrder;
    HistoryStep(ops, trees, n);
    if n == 0 {
      EmptyTree();
    } else {
      HoldsTheSet(ops, trees, n - 1);
      OpAgrees(trees[n - 1], ops[n - 1], trees[n]);
    }
  }

  lemma HistoryStep(ops: seq<Op>, trees: seq<Tree>, n: nat)
    requires History(ops, trees) && AlwaysBanded(ops) && n <= |ops|
    ensures |trees| == |ops| + 1 && trees[0] == Leaf
    ensures n > 0 ==> Banded(SetAt(ops, n - 1) + {ops[n - 1].cell})
    ensures n > 0 ==> InOrder(trees[n]) == InOrder(TreeAfter(trees[n - 1], ops[n - 1]))
  {
    hide Banded, InOrder, TreeAfter, SetAt;
    if n > 0 {
      var i := n - 1;
      assert InOrder(trees[i + 1]) == InOrder(TreeAfter(trees[i], ops[i]));
    }
  }

  lemma {:induction false} SetWithin(ops: seq<Op>, n: nat, z: set<Position>)
    requires n <= |ops| && Over(ops, z)
    ensures SetAt(ops, n) <= z
  {
    if n > 0 { SetWithin(ops, n - 1, z); }
  }

  ghost predicate Over(ops: seq<Op>, z: set<Position>) {
    forall i :: 0 <= i < |ops| ==> ops[i].cell in z
  }

  /** Whatever is done with cells of `z`, and however the tree is rebalanced, it answers as the set. */
  ghost predicate ActsAsSet(z: set<Position>) {
    forall ops, trees :: Over(ops, z) && History(ops, trees) ==> CountsRight(ops, trees)
  }

  lemma CountsAreRight(z: set<Position>, ops: seq<Op>, trees: seq<Tree>)
    requires Banded(z) && Over(ops, z) && History(ops, trees)
    ensures CountsRight(ops, trees)
  {
    hide Banded, SearchTree, Find, TreeAfter, SetAfter, InOrder;
    forall i | 0 <= i < |ops| ensures Banded(SetAt(ops, i) + {ops[i].cell}) {
      SetWithin(ops, i, z);
      BandedSubset(SetAt(ops, i) + {ops[i].cell}, z);
    }
    forall i | 0 <= i < |ops| && ops[i].Count?
      ensures Find(trees[i], ops[i].cell, None) <==> ops[i].cell in SetAt(ops, i)
    {
      HoldsTheSet(ops, trees, i);
      OpAgrees(trees[i], ops[i], trees[i + 1]);
    }
  }

  /** A cell that is lost, or found though another was inserted. */
  lemma WrongAnswer(z: set<Position>, a: Position, b: Position)
    requires a in z && b in z
    requires if a == b then Less(a, a) else !Less(a, b) && !Less(b, a)
    ensures !ActsAsSet(z)
  {
    var one := Node(Leaf, a, Leaf);
    var ops, trees := [Insert(a), Count(b)], [Leaf, one, one];
    assert TreeAfter(Leaf, ops[0]) == one && TreeAfter(one, ops[1]) == one;
    assert History(ops, trees) && Over(ops, z);
    assert SetAt(ops, 1) == SetAfter(SetAt(ops, 0), ops[0]) == {a};
    assert Find(one, b, None) <==> a != b;
    assert ops[1].Count?;
  }

  /** std::set keeps positions of `z` as a set if and only if `z` is banded. */
  lemma SetsExactlyBands(z: set<Position>)
    ensures ActsAsSet(z) <==> Banded(z)
  {
    hide History, CountsRight, Over;
    if Banded(z) {
      forall ops, trees | Over(ops, z) && History(ops, trees) ensures CountsRight(ops, trees) {
        CountsAreRight(z, ops, trees);
      }
    } else if a :| a in z && a.y > a.x {
      WrongAnswer(z, a, a);
    } else {
      var a, b :| a in z && b in z && a.x < b.x && a.x >= b.y;
      WrongAnswer(z, a, b);
    }
  }

  function BoardCells(p: Params): (cells: set<Position>)
    ensures forall c :: c in cells <==> OnBoard(p, c)
  {
    set x: u16, y: u16 | x < p.sizeX && y < p.sizeY :: Position(x, y)
  }

  /** On a board of more than one cell they are sets only as far as the blocks used are banded. */
  lemma BoardsAreNotOrdered(p: Params)
    requires p.Valid()
    ensures ActsAsSet(BoardCells(p)) <==> p.sizeX == 1 && p.sizeY == 1
  {
    hide ActsAsSet;
    SetsExactlyBands(BoardCells(p));
    assert OnBoard(p, Position(0, 0));
    if p.sizeY > 1 { assert OnBoard(p, Position(0, 1)); }
    if p.sizeX > 1 { assert OnBoard(p, Position(1, 0)); }
  }

  /** On a board of one row a set never holds more than one block: any other is then taken for it, so
      it is not inserted, is found, and takes the one away when it is destroyed. */
  lemma OneRowKeepsOneBlock(p: Params, a: Position, b: Position)
    requires p.sizeY == 1 && OnBoard(p, a) && OnBoard(p, b)
    ensures var t := Put(Leaf, a, None);
            Cells(t) == {a} && Put(t, b, None) == t && Find(t, b, None) && Drop(t, b) == Leaf
  {
  }

  /** So with two initial blocks on a board of 2x1, at (0, 0) and (1, 0), the log holds both and the
      server's set the first. */
  lemma TwoBlocksAreOne()
    ensures var a, b := Position(0, 0), Position(1, 0);
            var ops := [Insert(a), Insert(b)];
            SetAt(ops, 2) == {a, b} && Cells(Put(Put(Leaf, a, None), b, None)) == {a}
  {
    var ops := [Insert(Position(0, 0)), Insert(Position(1, 0))];
    assert SetAt(ops, 1) == SetAfter(SetAt(ops, 0), ops[0]) == {Position(0, 0)};
  }
}
