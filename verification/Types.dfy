/** The values the server and its clients exchange, with the widths the source gives them
    (game-messages.h), and the ascending traversal order of the source's ordered maps and sets. */
module Types {

  type u8 = x: int | 0 <= x < 0x100
  type u16 = x: int | 0 <= x < 0x1_0000
  type u32 = x: int | 0 <= x < 0x1_0000_0000

  datatype Option<+T> = None | Some(value: T)

  datatype Position = Position(x: u16, y: u16)

  datatype Bomb = Bomb(position: Position, timer: u16)

  /** Strings are byte sequences: the source stores them in std::string and never decodes them. */
  datatype Player = Player(name: seq<u8>, address: seq<u8>)

  datatype Event =
    | BombPlaced(id: u32, position: Position)
    | BombExploded(id: u32, robots: seq<u8>, blocks: seq<Position>)
    | PlayerMoved(player: u8, position: Position)
    | BlockPlaced(position: Position)

  datatype TurnInfo = TurnInfo(turn: u16, events: seq<Event>)

  datatype ServerMessage =
    | Hello(serverName: seq<u8>, playersCount: u8, sizeX: u16, sizeY: u16,
            gameLength: u16, explosionRadius: u16, bombTimer: u16)
    | AcceptedPlayer(id: u8, player: Player)
    | GameStarted(players: map<u8, Player>)
    | Turn(info: TurnInfo)
    | GameEnded(scores: map<u8, u32>)

  datatype ClientMessage =
    | Join(name: seq<u8>)
    | PlaceBomb
    | PlaceBlock
    | Move(direction: u8)

  const UP: u8 := 0
  const RIGHT: u8 := 1
  const DOWN: u8 := 2
  const LEFT: u8 := 3

  /** Unsigned arithmetic wraps round. */
  function Add8(a: u8, b: u8): u8 { if a + b < 0x100 then a + b else a + b - 0x100 }
  function Add16(a: u16, b: u16): u16 { if a + b < 0x1_0000 then a + b else a + b - 0x1_0000 }
  function Sub16(a: u16, b: u16): u16 { if a < b then a - b + 0x1_0000 else a - b }
  function Add32(a: u32, b: u32): u32 { if a + b < 0x1_0000_0000 then a + b else a + b - 0x1_0000_0000 }

  /** std::map::insert: an existing key keeps its value. */
  function Insert<K, V>(m: map<K, V>, k: K, v: V): map<K, V> {
    if k in m then m else m[k := v]
  }

  /** The elements of a sequence. */
  function Elems<T>(s: seq<T>): set<T> { set x | x in s }

  lemma ElemsConcat<T>(a: seq<T>, b: seq<T>)
    ensures Elems(a + b) == Elems(a) + Elems(b)
  {
  }

  lemma ElemsAppend<T>(s: seq<T>)
    requires s != []
    ensures Elems(s) == Elems(s[..|s| - 1]) + {s[|s| - 1]}
  {
    assert s == s[..|s| - 1] + [s[|s| - 1]];
  }

  lemma LastOfConcat<T>(a: seq<T>, b: seq<T>)
    requires b != []
    ensures (a + b)[..|a + b| - 1] == a + b[..|b| - 1] && (a + b)[|a + b| - 1] == b[|b| - 1]
  {
  }

  lemma Associates<T>(a: seq<T>, b: seq<T>, c: seq<T>)
    ensures (a + b) + c == a + (b + c)
  {
  }

  function Flag(b: bool): nat { if b then 1 else 0 }

  /** How many elements satisfy `f`. */
  function Count<T>(s: seq<T>, f: T -> bool): nat {
    if s == [] then 0 else Count(s[..|s| - 1], f) + Flag(f(s[|s| - 1]))
  }

  lemma {:induction false} CountConcat<T>(a: seq<T>, b: seq<T>, f: T -> bool)
    ensures Count(a + b, f) == Count(a, f) + Count(b, f)
  {
    if b == [] {
      assert a + b == a;
    } else {
      LastOfConcat(a, b);
      CountConcat(a, b[..|b| - 1], f);
    }
  }

  lemma {:induction false} CountNone<T>(s: seq<T>, f: T -> bool)
    requires forall i :: 0 <= i < |s| ==> !f(s[i])
    ensures Count(s, f) == 0
  {
    if s != [] { CountNone(s[..|s| - 1], f); }
  }

  predicate Ascending(s: seq<int>) {
    forall i, j :: 0 <= i < j < |s| ==> s[i] < s[j]
  }

  predicate Distinct<T(==)>(s: seq<T>) {
    forall i, j :: 0 <= i < j < |s| ==> s[i] != s[j]
  }
}

/** Iteration order of std::map and std::set over integer keys. */
module Ordered {
  import opened Types

  function Max(s: set<int>): (m: int)
    requires s != {}
    ensures m in s && forall x :: x in s ==> x <= m
  {
    MaxExists(s);
    var m :| m in s && forall x :: x in s ==> x <= m;
    m
  }

  lemma Member<T>(s: set<T>) returns (x: T)
    requires s != {}
    ensures x in s
  {
    x :| x in s;
  }

  lemma {:induction false} MaxExists(s: set<int>)
    requires s != {}
    ensures exists m :: m in s && forall x :: x in s ==> x <= m
  {
    var a := Member(s);
    if s != {a} {
      MaxExists(s - {a});
      var b :| b in s - {a} && forall x :: x in s - {a} ==> x <= b;
      var m := if a < b then b else a;
      forall x | x in s ensures x <= m { if x != a { assert x in s - {a}; } }
      assert m in s && forall x :: x in s ==> x <= m;
    }
  }

  /** The keys of an ordered container in iteration order: strictly ascending, each exactly once. */
  function Sorted(s: set<int>): (r: seq<int>)
    ensures Ascending(r)
    ensures forall x :: x in r <==> x in s
    ensures forall i :: 0 <= i < |r| ==> r[i] in s
    ensures |r| == |s|
  {
    if s == {} then [] else
      var m := Max(s);
      Sorted(s - {m}) + [m]
  }

  function Sorted8(s: set<u8>): (r: seq<u8>)
    ensures r == Sorted(s)
    ensures Ascending(r)
    ensures forall x :: x in r <==> x in s
    ensures forall i :: 0 <= i < |r| ==> r[i] in s
    ensures |r| == |s|
  {
    var r := Sorted(s);
    assert forall i :: 0 <= i < |r| ==> r[i] in s;
    r
  }

  function Sorted32(s: set<u32>): (r: seq<u32>)
    ensures r == Sorted(s)
    ensures Ascending(r)
    ensures forall x :: x in r <==> x in s
    ensures forall i :: 0 <= i < |r| ==> r[i] in s
    ensures |r| == |s|
  {
    var r := Sorted(s);
    assert forall i :: 0 <= i < |r| ==> r[i] in s;
    r
  }

  /** An ascending sequence is determined by its elements. */
  lemma {:induction false} AscendingUnique(a: seq<int>, b: seq<int>)
    requires Ascending(a) && Ascending(b) && forall x :: x in a <==> x in b
    ensures a == b
  {
    assert a == [] || a[0] in a;
    assert b == [] || b[0] in b;
    if a != [] {
      var m, n := |a| - 1, |b| - 1;
      assert a[m] in b && b[n] in a;
      assert a[m] == b[n];
      assert a == a[..m] + [a[m]] && b == b[..n] + [b[n]];
      assert a[m] !in a[..m] && b[n] !in b[..n];
      forall x ensures x in a[..m] <==> x in b[..n] { assert x in a <==> x in b; }
      AscendingUnique(a[..m], b[..n]);
    }
  }

  lemma SortedUnique(s: set<int>, r: seq<int>)
    requires Ascending(r) && forall x :: x in r <==> x in s
    ensures r == Sorted(s)
  {
    AscendingUnique(r, Sorted(s));
  }

  /** Visiting a larger key comes last. */
  lemma SortedAppend(s: set<int>, x: int)
    requires forall y :: y in s ==> y < x
    ensures Sorted(s + {x}) == Sorted(s) + [x]
  {
    SortedUnique(s + {x}, Sorted(s) + [x]);
  }

  /** Ids drawn from 0..n-1 number at most n. */
  lemma {:induction false} BoundedCard(s: set<int>, n: nat)
    requires forall x :: x in s ==> 0 <= x < n
    ensures |s| <= n
  {
    if n == 0 {
      if s != {} {
        var x := Member(s);
        assert false;
      }
    } else {
      BoundedCard(s - {n - 1}, n - 1);
    }
  }
}
