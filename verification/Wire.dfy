/** The byte format (README.md:47-55): big-endian integers, one-byte string lengths, four-byte list
    and map lengths. Encoders follow byte-parser.cpp and event.cpp, decoders robots-client.cpp. */
module Wire {
  import opened Types
  import opened Ordered

  type Bytes = seq<u8>

  /** A decoder returns a value and the bytes after it, or fails when the stream ends or a code is
      unknown (the client then exits). */
  type Decoder<T> = Bytes -> Option<(T, Bytes)>

  /** Decoding undoes encoding and consumes exactly the encoded bytes, whatever follows them. */
  ghost predicate RoundTrips<T>(enc: T -> Bytes, dec: Decoder<T>, x: T) {
    forall rest: Bytes :: dec(enc(x) + rest) == Some((x, rest))
  }

  /** A read that updates the stream in place: it fails exactly when the decoder does, and otherwise
      returns the decoder's value and leaves the decoder's rest. */
  ghost predicate Agrees<T>(r: Option<T>, got: Option<(T, Bytes)>, rest: Bytes) {
    (r.None? <==> got.None?) && (got.Some? ==> got == Some((r.value, rest)))
  }

  // ---------- integers ----------

  /** Two digits in base 256, most significant first. */
  function Join8(hi: int, lo: int): int { 0x100 * hi + lo }

  function U8Bytes(n: u8): Bytes { [n] }

  function U16Bytes(n: u16): Bytes { [n / 0x100, n % 0x100] }

  function U32Bytes(n: u32): Bytes { U16Bytes(n / 0x1_0000) + U16Bytes(n % 0x1_0000) }

  function ReadU8(bs: Bytes): Option<(u8, Bytes)> {
    if bs == [] then None else Some((bs[0], bs[1..]))
  }

  function ReadU16(bs: Bytes): Option<(u16, Bytes)> {
    if |bs| < 2 then None else Some((Join8(bs[0], bs[1]), bs[2..]))
  }

  function ReadU32(bs: Bytes): Option<(u32, Bytes)> {
    if |bs| < 4 then None else
      Some((0x1_0000 * Join8(bs[0], bs[1]) + Join8(bs[2], bs[3]), bs[4..]))
  }

  lemma U8Trip(n: u8)
    ensures RoundTrips(U8Bytes, ReadU8, n)
  {
  }

  lemma U16Trip(n: u16)
    ensures RoundTrips(U16Bytes, ReadU16, n)
  {
    forall rest: Bytes ensures ReadU16(U16Bytes(n) + rest) == Some((n, rest)) {
      assert (U16Bytes(n) + rest)[2..] == rest;
    }
  }

  lemma U32Trip(n: u32)
    ensures RoundTrips(U32Bytes, ReadU32, n)
  {
    forall rest: Bytes ensures ReadU32(U32Bytes(n) + rest) == Some((n, rest)) {
      assert (U32Bytes(n) + rest)[4..] == rest;
    }
  }

  // ---------- strings ----------

  function StringBytes(s: seq<u8>): Bytes { [|s| % 0x100] + s }

  function ReadString(bs: Bytes): Option<(seq<u8>, Bytes)> {
    if bs == [] || |bs| - 1 < bs[0] then None else Some((bs[1..1 + bs[0]], bs[1 + bs[0]..]))
  }

  /** A string survives exactly when its length fits the one length byte. */
  lemma StringTrip(s: seq<u8>)
    ensures RoundTrips(StringBytes, ReadString, s) <==> |s| < 0x100
  {
    if |s| < 0x100 {
      forall rest: Bytes ensures ReadString(StringBytes(s) + rest) == Some((s, rest)) {
        var bs := StringBytes(s) + rest;
        assert bs[1..1 + |s|] == s && bs[1 + |s|..] == rest;
      }
    } else {
      var bs := StringBytes(s) + [];
      assert ReadString(bs).Some? && |ReadString(bs).value.0| == |s| % 0x100 < |s|;
    }
  }

  // ---------- pairs and lists ----------

  function Both<A, B>(encA: A -> Bytes, encB: B -> Bytes): ((A, B)) -> Bytes {
    (x: (A, B)) => encA(x.0) + encB(x.1)
  }

  function ReadBoth<A, B>(decA: Decoder<A>, decB: Decoder<B>): Decoder<(A, B)> {
    (bs: Bytes) =>
      match decA(bs)
      case None => None
      case Some((a, rest)) =>
        match decB(rest)
        case None => None
        case Some((b, rest')) => Some(((a, b), rest'))
  }

  lemma BothTrip<A, B>(encA: A -> Bytes, decA: Decoder<A>, encB: B -> Bytes, decB: Decoder<B>, a: A, b: B)
    requires RoundTrips(encA, decA, a) && RoundTrips(encB, decB, b)
    ensures RoundTrips(Both(encA, encB), ReadBoth(decA, decB), (a, b))
  {
    forall rest: Bytes ensures ReadBoth(decA, decB)(Both(encA, encB)((a, b)) + rest) == Some(((a, b), rest)) {
      Associates(encA(a), encB(b), rest);
    }
  }

  /** The elements' encodings one after another. */
  function Concat<T>(enc: T -> Bytes, xs: seq<T>): Bytes {
    if xs == [] then [] else enc(xs[0]) + Concat(enc, xs[1..])
  }

  lemma {:induction false} ConcatAppend<T>(enc: T -> Bytes, xs: seq<T>, x: T)
    ensures Concat(enc, xs + [x]) == Concat(enc, xs) + enc(x)
  {
    if xs == [] {
      assert [x][1..] == [] && enc(x) + [] == enc(x);
    } else {
      assert (xs + [x])[1..] == xs[1..] + [x];
      ConcatAppend(enc, xs[1..], x);
      Associates(enc(xs[0]), Concat(enc, xs[1..]), enc(x));
    }
  }

  function ReadMany<T>(dec: Decoder<T>, n: nat, bs: Bytes): Option<(seq<T>, Bytes)> {
    if n == 0 then Some(([], bs)) else
      match dec(bs)
      case None => None
      case Some((x, rest)) =>
        match ReadMany(dec, n - 1, rest)
        case None => None
        case Some((xs, rest')) => Some(([x] + xs, rest'))
  }

  lemma {:induction false} ManyTrip<T>(enc: T -> Bytes, dec: Decoder<T>, xs: seq<T>, rest: Bytes)
    requires forall i :: 0 <= i < |xs| ==> RoundTrips(enc, dec, xs[i])
    ensures ReadMany(dec, |xs|, Concat(enc, xs) + rest) == Some((xs, rest))
  {
    if xs == [] {
      assert [] + rest == rest;
    } else {
      var more := xs[1..];
      forall i | 0 <= i < |more| ensures RoundTrips(enc, dec, more[i]) {
        assert more[i] == xs[i + 1];
      }
      ManyTrip(enc, dec, more, rest);
      Associates(enc(xs[0]), Concat(enc, more), rest);
      assert RoundTrips(enc, dec, xs[0]);
      assert dec(enc(xs[0]) + (Concat(enc, more) + rest)) == Some((xs[0], Concat(enc, more) + rest));
      assert [xs[0]] + more == xs;
    }
  }

  function ListBytes<T>(enc: T -> Bytes, xs: seq<T>): Bytes {
    U32Bytes(|xs| % 0x1_0000_0000) + Concat(enc, xs)
  }

  function ReadList<T>(dec: Decoder<T>): Decoder<seq<T>> {
    (bs: Bytes) =>
      match ReadU32(bs)
      case None => None
      case Some((n, rest)) => ReadMany(dec, n, rest)
  }

  /** Lists of any content round-trip up to the four-byte length. */
  lemma ListTrip<T>(enc: T -> Bytes, dec: Decoder<T>, xs: seq<T>)
    requires |xs| < 0x1_0000_0000 && forall i :: 0 <= i < |xs| ==> RoundTrips(enc, dec, xs[i])
    ensures RoundTrips((s: seq<T>) => ListBytes(enc, s), ReadList(dec), xs)
  {
    hide U32Bytes, ReadU32, ReadMany, Concat;
    U32Trip(|xs|);
    forall rest: Bytes ensures ReadList(dec)(ListBytes(enc, xs) + rest) == Some((xs, rest)) {
      Associates(U32Bytes(|xs|), Concat(enc, xs), rest);
      ManyTrip(enc, dec, xs, rest);
      assert ReadU32(U32Bytes(|xs|) + (Concat(enc, xs) + rest)) == Some((|xs|, Concat(enc, xs) + rest));
    }
  }

  // ---------- positions, players, maps ----------

  function PositionBytes(c: Position): Bytes { U16Bytes(c.x) + U16Bytes(c.y) }

  function ReadPosition(bs: Bytes): Option<(Position, Bytes)> {
    match ReadU16(bs)
    case None => None
    case Some((x, rest)) =>
      match ReadU16(rest)
      case None => None
      case Some((y, rest')) => Some((Position(x, y), rest'))
  }

  lemma PositionTrip(c: Position)
    ensures RoundTrips(PositionBytes, ReadPosition, c)
  {
    U16Trip(c.x);
    U16Trip(c.y);
    forall rest: Bytes ensures ReadPosition(PositionBytes(c) + rest) == Some((c, rest)) {
      Associates(U16Bytes(c.x), U16Bytes(c.y), rest);
    }
  }

  function PlayerBytes(pl: Player): Bytes { StringBytes(pl.name) + StringBytes(pl.address) }

  function ReadPlayer(bs: Bytes): Option<(Player, Bytes)> {
    match ReadString(bs)
    case None => None
    case Some((name, rest)) =>
      match ReadString(rest)
      case None => None
      case Some((address, rest')) => Some((Player(name, address), rest'))
  }

  predicate ShortPlayer(pl: Player) { |pl.name| < 0x100 && |pl.address| < 0x100 }

  lemma PlayerTrip(pl: Player)
    requires ShortPlayer(pl)
    ensures RoundTrips(PlayerBytes, ReadPlayer, pl)
  {
    StringTrip(pl.name);
    StringTrip(pl.address);
    forall rest: Bytes ensures ReadPlayer(PlayerBytes(pl) + rest) == Some((pl, rest)) {
      Associates(StringBytes(pl.name), StringBytes(pl.address), rest);
    }
  }

  /** A map's entries in key order. */
  function EntriesOf<V>(m: map<u8, V>, keys: seq<u8>): (r: seq<(u8, V)>)
    requires forall i :: 0 <= i < |keys| ==> keys[i] in m
    ensures |r| == |keys| && forall i :: 0 <= i < |r| ==> r[i] == (keys[i], m[keys[i]])
  {
    if keys == [] then [] else
      var n := |keys| - 1;
      EntriesOf(m, keys[..n]) + [(keys[n], m[keys[n]])]
  }

  function Entries<V>(m: map<u8, V>): seq<(u8, V)> { EntriesOf(m, Sorted8(m.Keys)) }

  /** Inserting entries in the order they are read; a repeated key keeps its first value. */
  function FromEntries<V>(es: seq<(u8, V)>): map<u8, V> {
    if es == [] then map[] else
      var n := |es| - 1;
      Insert(FromEntries(es[..n]), es[n].0, es[n].1)
  }

  lemma {:induction false} FromEntriesOf<V>(m: map<u8, V>, keys: seq<u8>)
    requires Ascending(keys) && forall i :: 0 <= i < |keys| ==> keys[i] in m
    ensures var r := FromEntries(EntriesOf(m, keys));
            (forall q :: q in r <==> q in keys) && (forall q :: q in r ==> q in m && r[q] == m[q])
  {
    if keys != [] {
      var n := |keys| - 1;
      FromEntriesOf(m, keys[..n]);
      var es := EntriesOf(m, keys);
      assert es[..n] == EntriesOf(m, keys[..n]);
      assert forall q :: q in keys <==> q in keys[..n] || q == keys[n];
      assert keys[n] !in keys[..n];
      assert FromEntries(es) == FromEntries(es[..n])[keys[n] := m[keys[n]]];
    }
  }

  lemma EntriesTrip<V>(m: map<u8, V>)
    ensures FromEntries(Entries(m)) == m && |Entries(m)| <= 0x100
  {
    hide EntriesOf, FromEntries, Sorted8;
    FromEntriesOf(m, Sorted8(m.Keys));
    BoundedCard(m.Keys, 0x100);
  }

  function MapBytes<V>(enc: V -> Bytes, m: map<u8, V>): Bytes {
    ListBytes(Both(U8Bytes, enc), Entries(m))
  }

  function ReadMap<V>(dec: Decoder<V>): Decoder<map<u8, V>> {
    (bs: Bytes) =>
      match ReadList(ReadBoth(ReadU8, dec))(bs)
      case None => None
      case Some((es, rest)) => Some((FromEntries(es), rest))
  }

  lemma MapTrip<V>(enc: V -> Bytes, dec: Decoder<V>, m: map<u8, V>)
    requires forall q :: q in m ==> RoundTrips(enc, dec, m[q])
    ensures RoundTrips((x: map<u8, V>) => MapBytes(enc, x), ReadMap(dec), m)
  {
    var es := Entries(m);
    EntriesTrip(m);
    forall i | 0 <= i < |es| ensures RoundTrips(Both(U8Bytes, enc), ReadBoth(ReadU8, dec), es[i]) {
      U8Trip(es[i].0);
      BothTrip(U8Bytes, ReadU8, enc, dec, es[i].0, es[i].1);
    }
    ListTrip(Both(U8Bytes, enc), ReadBoth(ReadU8, dec), es);
    var list := (s: seq<(u8, V)>) => ListBytes(Both(U8Bytes, enc), s);
    forall rest: Bytes ensures ReadMap(dec)(MapBytes(enc, m) + rest) == Some((m, rest)) {
      assert list(es) + rest == MapBytes(enc, m) + rest;
    }
  }

  // ---------- events ----------

  const BOMB_PLACED: u8 := 0
  const BOMB_EXPLODED: u8 := 1
  const PLAYER_MOVED: u8 := 2
  const BLOCK_PLACED: u8 := 3

  function EventBytes(e: Event): Bytes {
    match e
    case BombPlaced(id, c) => [BOMB_PLACED] + (U32Bytes(id) + PositionBytes(c))
    case BombExploded(id, robots, blocks) =>
      [BOMB_EXPLODED] + (U32Bytes(id) + (ListBytes(U8Bytes, robots) + ListBytes(PositionBytes, blocks)))
    case PlayerMoved(q, c) => [PLAYER_MOVED] + ([q] + PositionBytes(c))
    case BlockPlaced(c) => [BLOCK_PLACED] + PositionBytes(c)
  }

  function ReadBombPlaced(bs: Bytes): Option<(Event, Bytes)> {
    match ReadBoth(ReadU32, ReadPosition)(bs)
    case None => None
    case Some(((id, c), rest)) => Some((BombPlaced(id, c), rest))
  }

  function ReadBombExploded(bs: Bytes): Option<(Event, Bytes)> {
    match ReadBoth(ReadU32, ReadBoth(ReadList(ReadU8), ReadList(ReadPosition)))(bs)
    case None => None
    case Some(((id, (robots, blocks)), rest)) => Some((BombExploded(id, robots, blocks), rest))
  }

  function ReadPlayerMoved(bs: Bytes): Option<(Event, Bytes)> {
    match ReadBoth(ReadU8, ReadPosition)(bs)
    case None => None
    case Some(((q, c), rest)) => Some((PlayerMoved(q, c), rest))
  }

  function ReadBlockPlaced(bs: Bytes): Option<(Event, Bytes)> {
    match ReadPosition(bs)
    case None => None
    case Some((c, rest)) => Some((BlockPlaced(c), rest))
  }

  function ReadEvent(bs: Bytes): Option<(Event, Bytes)> {
    match ReadU8(bs)
    case None => None
    case Some((code, rest)) =>
      if code == BOMB_PLACED then ReadBombPlaced(rest)
      else if code == BOMB_EXPLODED then ReadBombExploded(rest)
      else if code == PLAYER_MOVED then ReadPlayerMoved(rest)
      else if code == BLOCK_PLACED then ReadBlockPlaced(rest)
      else None
  }

  predicate EncodableEvent(e: Event) {
    e.BombExploded? ==> |e.robots| < 0x1_0000_0000 && |e.blocks| < 0x1_0000_0000
  }

  lemma CodeFirst(code: u8, body: Bytes, rest: Bytes)
    ensures ReadU8([code] + body + rest) == Some((code, body + rest))
  {
    assert [code] + body + rest == [code] + (body + rest);
  }

  lemma ExplodedTrip(id: u32, robots: seq<u8>, blocks: seq<Position>, rest: Bytes)
    requires |robots| < 0x1_0000_0000 && |blocks| < 0x1_0000_0000
    ensures ReadBombExploded(U32Bytes(id) + (ListBytes(U8Bytes, robots) + ListBytes(PositionBytes, blocks)) + rest) ==
            Some((BombExploded(id, robots, blocks), rest))
  {
    hide U32Bytes, ReadU32, ReadMany, Concat;
    var encR, encB := (s: seq<u8>) => ListBytes(U8Bytes, s), (s: seq<Position>) => ListBytes(PositionBytes, s);
    forall i | 0 <= i < |robots| ensures RoundTrips(U8Bytes, ReadU8, robots[i]) { U8Trip(robots[i]); }
    forall i | 0 <= i < |blocks| ensures RoundTrips(PositionBytes, ReadPosition, blocks[i]) { PositionTrip(blocks[i]); }
    ListTrip(U8Bytes, ReadU8, robots);
    ListTrip(PositionBytes, ReadPosition, blocks);
    U32Trip(id);
    BothTrip(encR, ReadList(ReadU8), encB, ReadList(ReadPosition), robots, blocks);
    BothTrip(U32Bytes, ReadU32, Both(encR, encB), ReadBoth(ReadList(ReadU8), ReadList(ReadPosition)), id, (robots,
        blocks));
    assert Both(U32Bytes, Both(encR, encB))((id, (robots, blocks))) + rest ==
           U32Bytes(id) + (ListBytes(U8Bytes, robots) + ListBytes(PositionBytes, blocks)) + rest;
  }

  lemma PlacedTrip(id: u32, c: Position, rest: Bytes)
    ensures ReadBombPlaced(U32Bytes(id) + PositionBytes(c) + rest) == Some((BombPlaced(id, c), rest))
  {
    hide U32Bytes, ReadU32, PositionBytes, ReadPosition;
    U32Trip(id);
    PositionTrip(c);
    BothTrip(U32Bytes, ReadU32, PositionBytes, ReadPosition, id, c);
    assert Both(U32Bytes, PositionBytes)((id, c)) + rest == U32Bytes(id) + PositionBytes(c) + rest;
  }

  lemma MovedTrip(q: u8, c: Position, rest: Bytes)
    ensures ReadPlayerMoved([q] + PositionBytes(c) + rest) == Some((PlayerMoved(q, c), rest))
  {
    hide PositionBytes, ReadPosition;
    U8Trip(q);
    PositionTrip(c);
    BothTrip(U8Bytes, ReadU8, PositionBytes, ReadPosition, q, c);
    assert Both(U8Bytes, PositionBytes)((q, c)) + rest == [q] + PositionBytes(c) + rest;
  }

  lemma EventRoundTrips(e: Event)
    requires EncodableEvent(e)
    ensures RoundTrips(EventBytes, ReadEvent, e)
  {
    hide U32Bytes, PositionBytes, ListBytes, ReadBombPlaced, ReadBombExploded, ReadPlayerMoved, ReadPosition, ReadU8;
    forall rest: Bytes ensures ReadEvent(EventBytes(e) + rest) == Some((e, rest)) {
      match e
      case BombPlaced(id, c) =>
        CodeFirst(BOMB_PLACED, U32Bytes(id) + PositionBytes(c), rest);
        PlacedTrip(id, c, rest);
      case BombExploded(id, robots, blocks) =>
        CodeFirst(BOMB_EXPLODED, U32Bytes(id) + (ListBytes(U8Bytes, robots) + ListBytes(PositionBytes, blocks)), rest);
        ExplodedTrip(id, robots, blocks, rest);
      case PlayerMoved(q, c) =>
        CodeFirst(PLAYER_MOVED, [q] + PositionBytes(c), rest);
        MovedTrip(q, c, rest);
      case BlockPlaced(c) =>
        CodeFirst(BLOCK_PLACED, PositionBytes(c), rest);
        PositionTrip(c);
    }
  }

  // ---------- messages ----------

  const HELLO: u8 := 0
  const ACCEPTED_PLAYER: u8 := 1
  const GAME_STARTED: u8 := 2
  const TURN: u8 := 3
  const GAME_ENDED: u8 := 4

  function MessageBytes(m: ServerMessage): Bytes {
    match m
    case Hello(name, count, x, y, length, radius, timer) =>
      [HELLO] + (StringBytes(name) + ([count] + (U16Bytes(x) + (U16Bytes(y) +
        (U16Bytes(length) + (U16Bytes(radius) + U16Bytes(timer)))))))
    case AcceptedPlayer(id, player) => [ACCEPTED_PLAYER] + ([id] + PlayerBytes(player))
    case GameStarted(players) => [GAME_STARTED] + MapBytes(PlayerBytes, players)
    case Turn(info) => [TURN] + (U16Bytes(info.turn) + ListBytes(EventBytes, info.events))
    case GameEnded(scores) => [GAME_ENDED] + MapBytes(U32Bytes, scores)
  }

  type Header = (seq<u8>, (u8, (u16, (u16, (u16, (u16, u16))))))

  function ReadHeader(): Decoder<Header> {
    ReadBoth(ReadString, ReadBoth(ReadU8, ReadBoth(ReadU16, ReadBoth(ReadU16, ReadBoth(ReadU16, ReadBoth(ReadU16,
        ReadU16))))))
  }

  function ReadHello(bs: Bytes): Option<(ServerMessage, Bytes)> {
    match ReadHeader()(bs)
    case None => None
    case Some(((name, (count, (x, (y, (length, (radius, timer)))))), rest)) =>
      Some((Hello(name, count, x, y, length, radius, timer), rest))
  }

  function ReadAccepted(bs: Bytes): Option<(ServerMessage, Bytes)> {
    match ReadBoth(ReadU8, ReadPlayer)(bs)
    case None => None
    case Some(((id, player), rest)) => Some((AcceptedPlayer(id, player), rest))
  }

  function ReadGameStarted(bs: Bytes): Option<(ServerMessage, Bytes)> {
    match ReadMap(ReadPlayer)(bs)
    case None => None
    case Some((players, rest)) => Some((GameStarted(players), rest))
  }

  function ReadTurn(bs: Bytes): Option<(ServerMessage, Bytes)> {
    match ReadBoth(ReadU16, ReadList(ReadEvent))(bs)
    case None => None
    case Some(((t, events), rest)) => Some((Turn(TurnInfo(t, events)), rest))
  }

  function ReadGameEnded(bs: Bytes): Option<(ServerMessage, Bytes)> {
    match ReadMap(ReadU32)(bs)
    case None => None
    case Some((scores, rest)) => Some((GameEnded(scores), rest))
  }

  function ReadMessage(bs: Bytes): Option<(ServerMessage, Bytes)> {
    match ReadU8(bs)
    case None => None
    case Some((code, rest)) =>
      if code == HELLO then ReadHello(rest)
      else if code == ACCEPTED_PLAYER then ReadAccepted(rest)
      else if code == GAME_STARTED then ReadGameStarted(rest)
      else if code == TURN then ReadTurn(rest)
      else if code == GAME_ENDED then ReadGameEnded(rest)
      else None
  }

  /** What the length fields can carry. */
  predicate Encodable(m: ServerMessage) {
    match m
    case Hello(name, _, _, _, _, _, _) => |name| < 0x100
    case AcceptedPlayer(_, player) => ShortPlayer(player)
    case GameStarted(players) => forall q :: q in players ==> ShortPlayer(players[q])
    case Turn(info) => |info.events| < 0x1_0000_0000
        && forall i :: 0 <= i < |info.events| ==> EncodableEvent(info.events[i])
    case GameEnded(_) => true
  }

  lemma HelloTrip(m: ServerMessage, rest: Bytes)
    requires m.Hello? && Encodable(m)
    ensures ReadMessage(MessageBytes(m) + rest) == Some((m, rest))
  {
    hide StringBytes, U16Bytes, ReadString, ReadU16, ReadMap;
    StringTrip(m.serverName);
    U8Trip(m.playersCount);
    U16Trip(m.sizeX);
    U16Trip(m.sizeY);
    U16Trip(m.gameLength);
    U16Trip(m.explosionRadius);
    U16Trip(m.bombTimer);
    var e5 := Both(U16Bytes, U16Bytes);
    var e4, e3 := Both(U16Bytes, e5), Both(U16Bytes, Both(U16Bytes, e5));
    var e2 := Both(U16Bytes, e3);
    var e1 := Both(U8Bytes, e2);
    var d5 := ReadBoth(ReadU16, ReadU16);
    var d4, d3 := ReadBoth(ReadU16, d5), ReadBoth(ReadU16, ReadBoth(ReadU16, d5));
    var d2 := ReadBoth(ReadU16, d3);
    var d1 := ReadBoth(ReadU8, d2);
    var v5 := (m.explosionRadius, m.bombTimer);
    var v4, v3 := (m.gameLength, v5), (m.sizeY, (m.gameLength, v5));
    var v2 := (m.sizeX, v3);
    var v1 := (m.playersCount, v2);
    BothTrip(U16Bytes, ReadU16, U16Bytes, ReadU16, m.explosionRadius, m.bombTimer);
    BothTrip(U16Bytes, ReadU16, e5, d5, m.gameLength, v5);
    BothTrip(U16Bytes, ReadU16, e4, d4, m.sizeY, v4);
    BothTrip(U16Bytes, ReadU16, e3, d3, m.sizeX, v3);
    BothTrip(U8Bytes, ReadU8, e2, d2, m.playersCount, v2);
    BothTrip(StringBytes, ReadString, e1, d1, m.serverName, v1);
    CodeFirst(HELLO, Both(StringBytes, e1)((m.serverName, v1)), rest);
  }

  lemma TurnTrip(m: ServerMessage, rest: Bytes)
    requires m.Turn? && Encodable(m)
    ensures ReadMessage(MessageBytes(m) + rest) == Some((m, rest))
  {
    hide U16Bytes, ReadU16, EventBytes, ReadEvent, ReadMany, Concat, ReadMap, U32Bytes;
    var list := (s: seq<Event>) => ListBytes(EventBytes, s);
    U16Trip(m.info.turn);
    forall i | 0 <= i < |m.info.events| ensures RoundTrips(EventBytes, ReadEvent, m.info.events[i]) {
      EventRoundTrips(m.info.events[i]);
    }
    ListTrip(EventBytes, ReadEvent, m.info.events);
    BothTrip(U16Bytes, ReadU16, list, ReadList(ReadEvent), m.info.turn, m.info.events);
    var body := U16Bytes(m.info.turn) + ListBytes(EventBytes, m.info.events);
    assert Both(U16Bytes, list)((m.info.turn, m.info.events)) + rest == body + rest;
    CodeFirst(TURN, body, rest);
  }

  lemma MapMessageTrip(m: ServerMessage, rest: Bytes)
    requires (m.GameStarted? || m.GameEnded?) && Encodable(m)
    ensures ReadMessage(MessageBytes(m) + rest) == Some((m, rest))
  {
    hide PlayerBytes, ReadPlayer, U32Bytes, ReadU32, MapBytes, ReadMap, ReadHello;
    if m.GameStarted? {
      forall q | q in m.players ensures RoundTrips(PlayerBytes, ReadPlayer, m.players[q]) { PlayerTrip(m.players[q]); }
      MapTrip(PlayerBytes, ReadPlayer, m.players);
      var enc := (x: map<u8, Player>) => MapBytes(PlayerBytes, x);
      assert enc(m.players) + rest == MapBytes(PlayerBytes, m.players) + rest;
      CodeFirst(GAME_STARTED, MapBytes(PlayerBytes, m.players), rest);
    } else {
      forall q | q in m.scores ensures RoundTrips(U32Bytes, ReadU32, m.scores[q]) { U32Trip(m.scores[q]); }
      MapTrip(U32Bytes, ReadU32, m.scores);
      var enc := (x: map<u8, u32>) => MapBytes(U32Bytes, x);
      assert enc(m.scores) + rest == MapBytes(U32Bytes, m.scores) + rest;
      CodeFirst(GAME_ENDED, MapBytes(U32Bytes, m.scores), rest);
    }
  }

  lemma AcceptedTrip(m: ServerMessage, rest: Bytes)
    requires m.AcceptedPlayer? && Encodable(m)
    ensures ReadMessage(MessageBytes(m) + rest) == Some((m, rest))
  {
    hide PlayerBytes, ReadPlayer, ReadMap, ReadHello;
    U8Trip(m.id);
    PlayerTrip(m.player);
    BothTrip(U8Bytes, ReadU8, PlayerBytes, ReadPlayer, m.id, m.player);
    var body := [m.id] + PlayerBytes(m.player);
    assert Both(U8Bytes, PlayerBytes)((m.id, m.player)) + rest == body + rest;
    CodeFirst(ACCEPTED_PLAYER, body, rest);
  }

  // ---------- what a decoder returns can be encoded ----------

  /** A decoder returns only values that satisfy `ok`. */
  ghost predicate Yields<T(!new)>(dec: Decoder<T>, ok: T -> bool) {
    forall bs: Bytes :: dec(bs).Some? ==> ok(dec(bs).value.0)
  }

  lemma {:induction false} ManyYields<T(!new)>(dec: Decoder<T>, ok: T -> bool, n: nat, bs: Bytes)
    requires Yields(dec, ok)
    ensures ReadMany(dec, n, bs).Some? ==>
              var xs := ReadMany(dec, n, bs).value.0;
              |xs| == n && forall i :: 0 <= i < n ==> ok(xs[i])
  {
    if n > 0 && dec(bs).Some? {
      ManyYields(dec, ok, n - 1, dec(bs).value.1);
    }
  }

  function Fits<T>(ok: T -> bool): seq<T> -> bool {
    (xs: seq<T>) => |xs| < 0x1_0000_0000 && forall i :: 0 <= i < |xs| ==> ok(xs[i])
  }

  lemma ListYields<T(!new)>(dec: Decoder<T>, ok: T -> bool)
    requires Yields(dec, ok)
    ensures Yields(ReadList(dec), Fits(ok))
  {
    hide ReadU32, ReadMany;
    forall bs: Bytes | ReadList(dec)(bs).Some? ensures Fits(ok)(ReadList(dec)(bs).value.0) {
      var (n, rest) := ReadU32(bs).value;
      ManyYields(dec, ok, n, rest);
    }
  }

  lemma {:induction false} EntriesYield<V>(es: seq<(u8, V)>, ok: V -> bool)
    requires forall i :: 0 <= i < |es| ==> ok(es[i].1)
    ensures forall q :: q in FromEntries(es) ==> ok(FromEntries(es)[q])
  {
    if es != [] { EntriesYield(es[..|es| - 1], ok); }
  }

  lemma MapYields<V(!new)>(dec: Decoder<V>, ok: V -> bool)
    requires Yields(dec, ok)
    ensures forall bs: Bytes :: ReadMap(dec)(bs).Some? ==>
              forall q :: q in ReadMap(dec)(bs).value.0 ==> ok(ReadMap(dec)(bs).value.0[q])
  {
    hide ReadU8, ReadList, FromEntries;
    var pair := (e: (u8, V)) => ok(e.1);
    forall bs: Bytes | ReadBoth(ReadU8, dec)(bs).Some? ensures pair(ReadBoth(ReadU8, dec)(bs).value.0) {
      var (key, rest) := ReadU8(bs).value;
      assert dec(rest).Some? && ok(dec(rest).value.0);
    }
    ListYields(ReadBoth(ReadU8, dec), pair);
    forall bs: Bytes | ReadMap(dec)(bs).Some?
      ensures forall q :: q in ReadMap(dec)(bs).value.0 ==> ok(ReadMap(dec)(bs).value.0[q])
    {
      var es := ReadList(ReadBoth(ReadU8, dec))(bs).value.0;
      assert Fits(pair)(es);
      EntriesYield(es, ok);
    }
  }

  lemma EventYields()
    ensures Yields(ReadEvent, EncodableEvent)
  {
    hide ReadBombExploded;
    forall bs: Bytes | ReadEvent(bs).Some? ensures EncodableEvent(ReadEvent(bs).value.0) {
      if bs[0] == BOMB_EXPLODED { ExplodedYields(bs[1..]); }
    }
  }

  lemma ExplodedYields(bs: Bytes)
    requires ReadBombExploded(bs).Some?
    ensures EncodableEvent(ReadBombExploded(bs).value.0)
  {
    hide ReadU32, ReadPosition, ReadMany;
    var any8, anywhere := (q: u8) => true, (c: Position) => true;
    ListYields(ReadU8, any8);
    ListYields(ReadPosition, anywhere);
    var (id, rest) := ReadU32(bs).value;
    var (robots, rest') := ReadList(ReadU8)(rest).value;
    var (blocks, end) := ReadList(ReadPosition)(rest').value;
    assert Fits(any8)(robots) && Fits(anywhere)(blocks);
  }

  /** An event survives exactly when its lists fit their length fields. */
  lemma EventTrip(e: Event)
    ensures RoundTrips(EventBytes, ReadEvent, e) <==> EncodableEvent(e)
  {
    hide EventBytes, ReadEvent, EncodableEvent;
    if EncodableEvent(e) { EventRoundTrips(e); }
    if RoundTrips(EventBytes, ReadEvent, e) {
      EventYields();
      assert ReadEvent(EventBytes(e) + []) == Some((e, []));
    }
  }

  lemma HelloYields(bs: Bytes)
    ensures ReadHello(bs).Some? ==> ReadHello(bs).value.0.Hello? && |ReadHello(bs).value.0.serverName| < 0x100
  {
    hide ReadU8, ReadU16;
    if ReadHello(bs).Some? {
      assert ReadHeader()(bs).value.0.0 == ReadString(bs).value.0;
    }
  }

  lemma PlayerYields()
    ensures Yields(ReadPlayer, ShortPlayer)
  {
    forall bs: Bytes | ReadPlayer(bs).Some? ensures ShortPlayer(ReadPlayer(bs).value.0) {
      var (name, rest) := ReadString(bs).value;
      assert |name| < 0x100;
    }
  }

  lemma AcceptedYields(bs: Bytes)
    ensures ReadAccepted(bs).Some? ==>
              ReadAccepted(bs).value.0.AcceptedPlayer? && ShortPlayer(ReadAccepted(bs).value.0.player)
  {
    hide ReadPlayer, ShortPlayer;
    if ReadAccepted(bs).Some? {
      PlayerYields();
      var (id, rest) := ReadU8(bs).value;
      assert ReadPlayer(rest).Some? && ReadPlayer(rest).value.0 == ReadAccepted(bs).value.0.player;
    }
  }

  /** Whatever is decoded could have been encoded. */
  lemma MessageYields(bs: Bytes)
    ensures ReadMessage(bs).Some? ==> Encodable(ReadMessage(bs).value.0)
  {
    hide ReadEvent, EncodableEvent, ReadMap, ReadU32, ReadHello, ReadAccepted, ShortPlayer;
    if ReadMessage(bs).Some? {
      var rest := bs[1..];
      if bs[0] == HELLO {
        HelloYields(rest);
      } else if bs[0] == ACCEPTED_PLAYER {
        AcceptedYields(rest);
      } else if bs[0] == GAME_STARTED {
        PlayerYields();
        MapYields(ReadPlayer, ShortPlayer);
      } else if bs[0] == TURN {
        EventYields();
        ListYields(ReadEvent, EncodableEvent);
        var (t, rest') := ReadU16(rest).value;
        assert Fits(EncodableEvent)(ReadList(ReadEvent)(rest').value.0);
      }
    }
  }

  /** A message survives exactly when the length fields can carry it. */
  lemma MessageTrip(m: ServerMessage)
    ensures RoundTrips(MessageBytes, ReadMessage, m) <==> Encodable(m)
  {
    hide MessageBytes, ReadMessage;
    if Encodable(m) {
      forall rest: Bytes ensures ReadMessage(MessageBytes(m) + rest) == Some((m, rest)) {
        match m
        case Hello(_, _, _, _, _, _, _) => HelloTrip(m, rest);
        case AcceptedPlayer(_, _) => AcceptedTrip(m, rest);
        case GameStarted(_) => MapMessageTrip(m, rest);
        case Turn(_) => TurnTrip(m, rest);
        case GameEnded(_) => MapMessageTrip(m, rest);
      }
    }
    if RoundTrips(MessageBytes, ReadMessage, m) {
      assert ReadMessage(MessageBytes(m) + []) == Some((m, []));
      MessageYields(MessageBytes(m) + []);
    }
  }

  /** Server messages sent one after another are read back exactly, with nothing left, if and only if
      the length fields can carry each of them. */
  lemma StreamTrip(ms: seq<ServerMessage>)
    ensures ReadMany(ReadMessage, |ms|, Concat(MessageBytes, ms)) == Some((ms, [])) <==>
            forall i :: 0 <= i < |ms| ==> Encodable(ms[i])
  {
    hide MessageBytes, ReadMessage, Encodable, ReadMany, Concat;
    var bs := Concat(MessageBytes, ms);
    if forall i :: 0 <= i < |ms| ==> Encodable(ms[i]) {
      forall i | 0 <= i < |ms| ensures RoundTrips(MessageBytes, ReadMessage, ms[i]) {
        MessageTrip(ms[i]);
      }
      ManyTrip(MessageBytes, ReadMessage, ms, []);
      assert bs + [] == bs;
    }
    forall b ensures ReadMessage(b).Some? ==> Encodable(ReadMessage(b).value.0) {
      MessageYields(b);
    }
    ManyYields(ReadMessage, Encodable, |ms|, bs);
  }
}
