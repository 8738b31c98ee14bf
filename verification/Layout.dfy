/** The bytes on the wire, in numerals: every code, every field in its place, every integer with its
    most significant byte first (README.md:47-85, game-messages.h:17-55, byte-parser.cpp, event.cpp).
    And what the decoders take for an event: exactly these bytes. */
module Layout {
  import opened Types
  import opened Ordered
  import opened Wire
  import opened ClientMessages

  function Two(n: u16): Bytes { [n / 256, n % 256] }

  function Four(n: u32): Bytes { [n / 16777216, n / 65536 % 256, n / 256 % 256, n % 256] }

  /** A string after its length, of which one byte is kept. */
  function Text(s: seq<u8>): Bytes { [|s| % 256] + s }

  function Cell4(c: Position): Bytes { [c.x / 256, c.x % 256, c.y / 256, c.y % 256] }

  lemma FourIsU32(n: u32)
    ensures U32Bytes(n) == Four(n)
  {
    var a, b := n / 65536 / 256, n / 65536 % 256;
    var c, d := n % 65536 / 256, n % 65536 % 256;
    assert n == 16777216 * a + 65536 * b + 256 * c + d;
    assert n / 16777216 == a;
    assert n / 256 == 256 * (256 * a + b) + c;
  }

  // ---------- events ----------


  lemma {:induction false} RobotsInPlace(robots: seq<u8>)
    ensures Concat(U8Bytes, robots) == robots
  {
    if robots != [] {
      RobotsInPlace(robots[1..]);
      assert robots == [robots[0]] + robots[1..];
    }
  }

  lemma {:induction false} CellsInPlace(cells: seq<Position>)
    ensures |Concat(PositionBytes, cells)| == 4 * |cells|
    ensures forall i :: 0 <= i < |cells| ==> Concat(PositionBytes, cells)[4 * i..4 * i + 4] == Cell4(cells[i])
  {
    if cells != [] {
      CellsInPlace(cells[1..]);
      var first, more := PositionBytes(cells[0]), Concat(PositionBytes, cells[1..]);
      assert first == Cell4(cells[0]);
      forall i | 0 <= i < |cells| ensures (first + more)[4 * i..4 * i + 4] == Cell4(cells[i]) {
        if i > 0 {
          assert (first + more)[4 * i..4 * i + 4] == more[4 * (i - 1)..4 * (i - 1) + 4];
        }
      }
    }
  }

  /** The bytes of each event, whatever it is. */
  lemma EventLayout(e: Event)
    ensures match e
            case BombPlaced(id, c) => EventBytes(e) == [0] + Four(id) + Cell4(c)
            case BombExploded(id, robots, blocks) =>
              exists cells: Bytes ::
                && EventBytes(e) == [1] + Four(id) + Four(|robots| % 4294967296) + robots +
                                    Four(|blocks| % 4294967296) + cells
                && |cells| == 4 * |blocks|
                && forall i :: 0 <= i < |blocks| ==> cells[4 * i..4 * i + 4] == Cell4(blocks[i])
            case PlayerMoved(q, c) => EventBytes(e) == [2, q] + Cell4(c)
            case BlockPlaced(c) => EventBytes(e) == [3] + Cell4(c)
  {
    match e
    case BombPlaced(id, c) => FourIsU32(id);
    case BombExploded(id, robots, blocks) =>
      hide U32Bytes;
      FourIsU32(id);
      FourIsU32(|robots| % 4294967296);
      FourIsU32(|blocks| % 4294967296);
      RobotsInPlace(robots);
      CellsInPlace(blocks);
      var cells := Concat(PositionBytes, blocks);
      assert EventBytes(e) == [1] + Four(id) + Four(|robots| % 4294967296) + robots +
                              Four(|blocks| % 4294967296) + cells;
    case PlayerMoved(q, c) =>
    case BlockPlaced(c) =>
  }

  // ---------- messages ----------

  function PlayerEntries(players: map<u8, Player>, ids: seq<u8>): Bytes
    requires forall i :: 0 <= i < |ids| ==> ids[i] in players
  {
    if ids == [] then [] else
      var n := |ids| - 1;
      PlayerEntries(players, ids[..n]) + [ids[n]] + Text(players[ids[n]].name) + Text(players[ids[n]].address)
  }

  function ScoreEntries(scores: map<u8, u32>, ids: seq<u8>): Bytes
    requires forall i :: 0 <= i < |ids| ==> ids[i] in scores
  {
    if ids == [] then [] else
      var n := |ids| - 1;
      ScoreEntries(scores, ids[..n]) + [ids[n]] + Four(scores[ids[n]])
  }

  lemma {:induction false} PlayersInPlace(players: map<u8, Player>, ids: seq<u8>)
    requires forall i :: 0 <= i < |ids| ==> ids[i] in players
    ensures Concat(Both(U8Bytes, PlayerBytes), EntriesOf(players, ids)) == PlayerEntries(players, ids)
  {
    if ids != [] {
      var n := |ids| - 1;
      var entry := (ids[n], players[ids[n]]);
      PlayersInPlace(players, ids[..n]);
      ConcatAppend(Both(U8Bytes, PlayerBytes), EntriesOf(players, ids[..n]), entry);
      var before := PlayerEntries(players, ids[..n]);
      assert before + Both(U8Bytes, PlayerBytes)(entry) ==
             before + [ids[n]] + Text(players[ids[n]].name) + Text(players[ids[n]].address);
    }
  }

  lemma {:induction false} ScoresInPlace(scores: map<u8, u32>, ids: seq<u8>)
    requires forall i :: 0 <= i < |ids| ==> ids[i] in scores
    ensures Concat(Both(U8Bytes, U32Bytes), EntriesOf(scores, ids)) == ScoreEntries(scores, ids)
  {
    if ids != [] {
      hide U32Bytes, Four;
      var n := |ids| - 1;
      var entry := (ids[n], scores[ids[n]]);
      ScoresInPlace(scores, ids[..n]);
      ConcatAppend(Both(U8Bytes, U32Bytes), EntriesOf(scores, ids[..n]), entry);
      FourIsU32(scores[ids[n]]);
      var before := ScoreEntries(scores, ids[..n]);
      assert before + Both(U8Bytes, U32Bytes)(entry) == before + [ids[n]] + Four(scores[ids[n]]);
    }
  }

  lemma HelloLayout(m: ServerMessage)
    requires m.Hello?
    ensures MessageBytes(m) == [0] + Text(m.serverName) + [m.playersCount] + Two(m.sizeX) + Two(m.sizeY) +
                               Two(m.gameLength) + Two(m.explosionRadius) + Two(m.bombTimer)
  {
  }

  lemma AcceptedLayout(id: u8, player: Player)
    ensures MessageBytes(AcceptedPlayer(id, player)) == [1, id] + Text(player.name) + Text(player.address)
  {
  }

  /** A turn is its number, the number of its events, and their bytes in order. */
  lemma TurnLayout(info: TurnInfo)
    ensures MessageBytes(Turn(info)) == [3] + Two(info.turn) + Four(|info.events| % 4294967296) +
                                        Concat(EventBytes, info.events)
  {
    hide EventBytes, Concat, U32Bytes, Four;
    FourIsU32(|info.events| % 4294967296);
  }

  lemma MapLayout<V>(enc: V -> Bytes, m: map<u8, V>)
    ensures |m| <= 256
    ensures MapBytes(enc, m) == Four(|m|) + Concat(Both(U8Bytes, enc), EntriesOf(m, Sorted8(m.Keys)))
  {
    hide Concat, Both, U32Bytes, Four, Sorted;
    BoundedCard(m.Keys, 256);
    var es := EntriesOf(m, Sorted8(m.Keys));
    assert |es| == |m.Keys| == |m|;
    FourIsU32(|es|);
  }

  lemma PlayersLayout(players: map<u8, Player>)
    ensures |players| <= 256
    ensures MessageBytes(GameStarted(players)) == [2] + Four(|players|) + PlayerEntries(players, Sorted8(players.Keys))
  {
    hide Sorted8, MapBytes, Four, PlayerEntries, PlayerBytes, EntriesOf, Concat;
    var ids := Sorted8(players.Keys);
    MapLayout(PlayerBytes, players);
    PlayersInPlace(players, ids);
    Associates([2], Four(|players|), PlayerEntries(players, ids));
  }

  lemma ScoresLayout(scores: map<u8, u32>)
    ensures |scores| <= 256
    ensures MessageBytes(GameEnded(scores)) == [4] + Four(|scores|) + ScoreEntries(scores, Sorted8(scores.Keys))
  {
    hide Sorted8, MapBytes, Four, ScoreEntries, U32Bytes, EntriesOf, Concat;
    var ids := Sorted8(scores.Keys);
    MapLayout(U32Bytes, scores);
    ScoresInPlace(scores, ids);
    Associates([4], Four(|scores|), ScoreEntries(scores, ids));
  }

  /** The bytes of each server message. */
  lemma MessageLayout(m: ServerMessage)
    ensures match m
            case Hello(name, count, x, y, length, radius, timer) =>
              MessageBytes(m) == [0] + Text(name) + [count] + Two(x) + Two(y) + Two(length) + Two(radius) + Two(timer)
            case AcceptedPlayer(id, player) => MessageBytes(m) == [1, id] + Text(player.name) + Text(player.address)
            case GameStarted(players) =>
              |players| <= 256 &&
              MessageBytes(m) == [2] + Four(|players|) + PlayerEntries(players, Sorted8(players.Keys))
            case Turn(info) =>
              MessageBytes(m) == [3] + Two(info.turn) + Four(|info.events| % 4294967296) +
                                 Concat(EventBytes, info.events)
            case GameEnded(scores) =>
              |scores| <= 256 && MessageBytes(m) == [4] + Four(|scores|) + ScoreEntries(scores, Sorted8(scores.Keys))
  {
    hide MessageBytes, Sorted;
    match m
    case Hello(_, _, _, _, _, _, _) => HelloLayout(m);
    case AcceptedPlayer(id, player) => AcceptedLayout(id, player);
    case GameStarted(players) => PlayersLayout(players);
    case Turn(info) => TurnLayout(info);
    case GameEnded(scores) => ScoresLayout(scores);
  }

  /** The bytes of each client message. */
  lemma ClientLayout(m: ClientMessage)
    ensures ClientBytes(m) == match m
                              case Join(name) => [0] + Text(name)
                              case PlaceBomb => [1]
                              case PlaceBlock => [2]
                              case Move(d) => [3, d]
  {
  }

  // ---------- what the decoders take ----------

  /** What is decoded stands there encoded. */
  ghost predicate Faithful<T(!new)>(enc: T -> Bytes, dec: Decoder<T>) {
    forall bs: Bytes :: dec(bs).Some? ==> bs == enc(dec(bs).value.0) + dec(bs).value.1
  }

  lemma TwoDigits(hi: u8, lo: u8)
    ensures U16Bytes(Join8(hi, lo)) == [hi, lo]
  {
  }

  lemma TwoHalves(hi: u16, lo: u16)
    ensures U32Bytes(65536 * hi + lo) == U16Bytes(hi) + U16Bytes(lo)
  {
    hide U16Bytes;
    assert (65536 * hi + lo) / 65536 == hi && (65536 * hi + lo) % 65536 == lo;
  }

  lemma WordFaithful(bs: Bytes)
    requires |bs| >= 4
    ensures bs == U32Bytes(ReadU32(bs).value.0) + bs[4..]
  {
    hide U32Bytes, U16Bytes;
    TwoDigits(bs[0], bs[1]);
    TwoDigits(bs[2], bs[3]);
    TwoHalves(Join8(bs[0], bs[1]), Join8(bs[2], bs[3]));
    assert bs == [bs[0], bs[1]] + [bs[2], bs[3]] + bs[4..];
  }

  lemma IntegersFaithful()
    ensures Faithful(U8Bytes, ReadU8) && Faithful(U16Bytes, ReadU16) && Faithful(U32Bytes, ReadU32)
  {
    hide U16Bytes, U32Bytes, Join8;
    forall bs: Bytes | ReadU8(bs).Some? ensures bs == U8Bytes(ReadU8(bs).value.0) + ReadU8(bs).value.1 {}
    forall bs: Bytes | ReadU16(bs).Some? ensures bs == U16Bytes(ReadU16(bs).value.0) + ReadU16(bs).value.1 {
      TwoDigits(bs[0], bs[1]);
      assert bs == [bs[0], bs[1]] + bs[2..];
    }
    forall bs: Bytes | ReadU32(bs).Some? ensures bs == U32Bytes(ReadU32(bs).value.0) + ReadU32(bs).value.1 {
      WordFaithful(bs);
    }
  }

  lemma BothFaithful<A(!new), B(!new)>(encA: A -> Bytes, decA: Decoder<A>, encB: B -> Bytes, decB: Decoder<B>)
    requires Faithful(encA, decA) && Faithful(encB, decB)
    ensures Faithful(Both(encA, encB), ReadBoth(decA, decB))
  {
    forall bs: Bytes | ReadBoth(decA, decB)(bs).Some?
      ensures var (x, rest) := ReadBoth(decA, decB)(bs).value; bs == Both(encA, encB)(x) + rest
    {
      var (a, more) := decA(bs).value;
      var (b, rest) := decB(more).value;
      assert bs == encA(a) + more && more == encB(b) + rest;
      Associates(encA(a), encB(b), rest);
    }
  }

  lemma {:induction false} ManyFaithful<T(!new)>(enc: T -> Bytes, dec: Decoder<T>, n: nat, bs: Bytes)
    requires Faithful(enc, dec) && ReadMany(dec, n, bs).Some?
    ensures var (xs, rest) := ReadMany(dec, n, bs).value; |xs| == n && bs == Concat(enc, xs) + rest
  {
    if n > 0 {
      var (x, more) := dec(bs).value;
      ManyFaithful(enc, dec, n - 1, more);
      var (xs, rest) := ReadMany(dec, n - 1, more).value;
      assert bs == enc(x) + more;
      assert ([x] + xs)[1..] == xs;
      Associates(enc(x), Concat(enc, xs), rest);
    }
  }

  lemma ListFaithful<T(!new)>(enc: T -> Bytes, dec: Decoder<T>)
    requires Faithful(enc, dec)
    ensures Faithful((xs: seq<T>) => ListBytes(enc, xs), ReadList(dec))
  {
    hide ReadU32, U32Bytes, ReadMany, Concat;
    IntegersFaithful();
    forall bs: Bytes | ReadList(dec)(bs).Some?
      ensures var (xs, rest) := ReadList(dec)(bs).value; bs == ListBytes(enc, xs) + rest
    {
      var (n, more) := ReadU32(bs).value;
      ManyFaithful(enc, dec, n, more);
      var (xs, rest) := ReadMany(dec, n, more).value;
      assert bs == U32Bytes(n) + more;
      Associates(U32Bytes(n), Concat(enc, xs), rest);
    }
  }

  lemma PositionFaithful()
    ensures Faithful(PositionBytes, ReadPosition)
  {
    hide U16Bytes, ReadU16;
    IntegersFaithful();
    forall bs: Bytes | ReadPosition(bs).Some?
      ensures bs == PositionBytes(ReadPosition(bs).value.0) + ReadPosition(bs).value.1
    {
      var (x, more) := ReadU16(bs).value;
      var (y, rest) := ReadU16(more).value;
      assert bs == U16Bytes(x) + more && more == U16Bytes(y) + rest;
      Associates(U16Bytes(x), U16Bytes(y), rest);
    }
  }

  lemma ExplodedFaithful(bs: Bytes)
    requires ReadBombExploded(bs).Some?
    ensures var (e, rest) := ReadBombExploded(bs).value; [1] + bs == EventBytes(e) + rest
  {
    hide U32Bytes, ReadU32, ReadList, ListBytes, PositionBytes, ReadPosition;
    var encR, encB := (s: seq<u8>) => ListBytes(U8Bytes, s), (s: seq<Position>) => ListBytes(PositionBytes, s);
    IntegersFaithful();
    PositionFaithful();
    ListFaithful(U8Bytes, ReadU8);
    ListFaithful(PositionBytes, ReadPosition);
    BothFaithful(encR, ReadList(ReadU8), encB, ReadList(ReadPosition));
    var tail := ReadBoth(ReadList(ReadU8), ReadList(ReadPosition));
    BothFaithful(U32Bytes, ReadU32, Both(encR, encB), tail);
    var ((id, (robots, blocks)), rest) := ReadBoth(ReadU32, tail)(bs).value;
    var body := U32Bytes(id) + (ListBytes(U8Bytes, robots) + ListBytes(PositionBytes, blocks));
    assert bs == body + rest;
    Associates([1], body, rest);
  }

  lemma PlacedFaithful(bs: Bytes)
    requires ReadBombPlaced(bs).Some?
    ensures var (e, rest) := ReadBombPlaced(bs).value; [0] + bs == EventBytes(e) + rest
  {
    hide U32Bytes, ReadU32, PositionBytes, ReadPosition;
    IntegersFaithful();
    PositionFaithful();
    BothFaithful(U32Bytes, ReadU32, PositionBytes, ReadPosition);
    var ((id, c), rest) := ReadBoth(ReadU32, ReadPosition)(bs).value;
    Associates([0], U32Bytes(id) + PositionBytes(c), rest);
  }

  lemma MovedFaithful(bs: Bytes)
    requires ReadPlayerMoved(bs).Some?
    ensures var (e, rest) := ReadPlayerMoved(bs).value; [2] + bs == EventBytes(e) + rest
  {
    hide PositionBytes, ReadPosition;
    IntegersFaithful();
    PositionFaithful();
    BothFaithful(U8Bytes, ReadU8, PositionBytes, ReadPosition);
    var ((q, c), rest) := ReadBoth(ReadU8, ReadPosition)(bs).value;
    assert bs == Both(U8Bytes, PositionBytes)((q, c)) + rest;
    Associates([2], [q] + PositionBytes(c), rest);
  }

  lemma BlockFaithful(bs: Bytes)
    requires ReadBlockPlaced(bs).Some?
    ensures var (e, rest) := ReadBlockPlaced(bs).value; [3] + bs == EventBytes(e) + rest
  {
    hide PositionBytes, ReadPosition;
    PositionFaithful();
    var (c, rest) := ReadPosition(bs).value;
    Associates([3], PositionBytes(c), rest);
  }

  lemma EventFaithful()
    ensures Faithful(EventBytes, ReadEvent)
  {
    hide EventBytes, ReadBombPlaced, ReadBombExploded, ReadPlayerMoved, ReadBlockPlaced;
    forall bs: Bytes | ReadEvent(bs).Some?
      ensures bs == EventBytes(ReadEvent(bs).value.0) + ReadEvent(bs).value.1
    {
      var more := bs[1..];
      assert bs == [bs[0]] + more;
      if bs[0] == 0 { PlacedFaithful(more); }
      else if bs[0] == 1 { ExplodedFaithful(more); }
      else if bs[0] == 2 { MovedFaithful(more); }
      else { BlockFaithful(more); }
    }
  }

  /** An event is read exactly where its bytes stand, so from no other first byte than 0 to 3. */
  lemma EventDecoder(bs: Bytes, e: Event, rest: Bytes)
    ensures ReadEvent(bs) == Some((e, rest)) <==> EncodableEvent(e) && bs == EventBytes(e) + rest
    ensures bs == [] || bs[0] > 3 ==> ReadEvent(bs).None?
  {
    hide EventBytes, ReadEvent, EncodableEvent;
    EventFaithful();
    EventYields();
    EventTrip(e);
    if EncodableEvent(e) { assert RoundTrips(EventBytes, ReadEvent, e); }
    if bs == [] || bs[0] > 3 { NoSuchEvent(bs); }
  }

  lemma NoSuchEvent(bs: Bytes)
    requires bs == [] || bs[0] > 3
    ensures ReadEvent(bs).None?
  {
  }

  lemma StringFaithful()
    ensures Faithful(StringBytes, ReadString)
  {
    forall bs: Bytes | ReadString(bs).Some?
      ensures bs == StringBytes(ReadString(bs).value.0) + ReadString(bs).value.1
    {
      var n := bs[0];
      assert bs == [n] + bs[1..1 + n] + bs[1 + n..];
    }
  }

  lemma PlayerFaithful()
    ensures Faithful(PlayerBytes, ReadPlayer)
  {
    hide StringBytes, ReadString;
    StringFaithful();
    forall bs: Bytes | ReadPlayer(bs).Some?
      ensures bs == PlayerBytes(ReadPlayer(bs).value.0) + ReadPlayer(bs).value.1
    {
      var (name, more) := ReadString(bs).value;
      var (address, rest) := ReadString(more).value;
      assert bs == StringBytes(name) + more && more == StringBytes(address) + rest;
      Associates(StringBytes(name), StringBytes(address), rest);
    }
  }

  lemma AcceptedFaithful(bs: Bytes)
    requires ReadAccepted(bs).Some?
    ensures var (m, rest) := ReadAccepted(bs).value; m.AcceptedPlayer? && [1] + bs == MessageBytes(m) + rest
  {
    hide PlayerBytes, ReadPlayer;
    IntegersFaithful();
    PlayerFaithful();
    BothFaithful(U8Bytes, ReadU8, PlayerBytes, ReadPlayer);
    var ((id, player), rest) := ReadBoth(ReadU8, ReadPlayer)(bs).value;
    assert bs == Both(U8Bytes, PlayerBytes)((id, player)) + rest;
    Associates([1], [id] + PlayerBytes(player), rest);
  }

  lemma TurnFaithful(bs: Bytes)
    requires ReadTurn(bs).Some?
    ensures var (m, rest) := ReadTurn(bs).value; m.Turn? && [3] + bs == MessageBytes(m) + rest
  {
    hide U16Bytes, ReadU16, EventBytes, ReadEvent, ReadList, ListBytes;
    IntegersFaithful();
    EventFaithful();
    ListFaithful(EventBytes, ReadEvent);
    var list := (xs: seq<Event>) => ListBytes(EventBytes, xs);
    BothFaithful(U16Bytes, ReadU16, list, ReadList(ReadEvent));
    var ((t, events), rest) := ReadBoth(ReadU16, ReadList(ReadEvent))(bs).value;
    assert bs == Both(U16Bytes, list)((t, events)) + rest;
    Associates([3], U16Bytes(t) + ListBytes(EventBytes, events), rest);
  }

  lemma HelloFaithful(bs: Bytes)
    requires ReadHello(bs).Some?
    ensures var (m, rest) := ReadHello(bs).value; m.Hello? && [0] + bs == MessageBytes(m) + rest
  {
    hide U16Bytes, ReadU16, StringBytes, ReadString;
    IntegersFaithful();
    StringFaithful();
    var e5 := Both(U16Bytes, U16Bytes);
    var e4, e3 := Both(U16Bytes, e5), Both(U16Bytes, Both(U16Bytes, e5));
    var e2 := Both(U16Bytes, e3);
    var e1 := Both(U8Bytes, e2);
    var d5 := ReadBoth(ReadU16, ReadU16);
    var d4, d3 := ReadBoth(ReadU16, d5), ReadBoth(ReadU16, ReadBoth(ReadU16, d5));
    var d2 := ReadBoth(ReadU16, d3);
    var d1 := ReadBoth(ReadU8, d2);
    BothFaithful(U16Bytes, ReadU16, U16Bytes, ReadU16);
    BothFaithful(U16Bytes, ReadU16, e5, d5);
    BothFaithful(U16Bytes, ReadU16, e4, d4);
    BothFaithful(U16Bytes, ReadU16, e3, d3);
    BothFaithful(U8Bytes, ReadU8, e2, d2);
    BothFaithful(StringBytes, ReadString, e1, d1);
    var (h, rest) := ReadBoth(ReadString, d1)(bs).value;
    assert bs == Both(StringBytes, e1)(h) + rest;
    Associates([0], Both(StringBytes, e1)(h), rest);
  }

  lemma MapCodes(bs: Bytes)
    ensures bs == [] || bs[0] > 4 ==> ReadMessage(bs).None?
    ensures bs != [] && bs[0] == 2 && ReadMessage(bs).Some? ==> ReadMessage(bs).value.0.GameStarted?
    ensures bs != [] && bs[0] == 4 && ReadMessage(bs).Some? ==> ReadMessage(bs).value.0.GameEnded?
  {
    hide ReadHello, ReadAccepted, ReadTurn, ReadMap;
  }

  lemma MessageFaithful(bs: Bytes)
    requires ReadMessage(bs).Some? && !ReadMessage(bs).value.0.GameStarted? && !ReadMessage(bs).value.0.GameEnded?
    ensures bs == MessageBytes(ReadMessage(bs).value.0) + ReadMessage(bs).value.1
  {
    hide MessageBytes, ReadHello, ReadAccepted, ReadTurn, ReadGameStarted, ReadGameEnded;
    MapCodes(bs);
    var more := bs[1..];
    assert bs == [bs[0]] + more;
    if bs[0] == 0 { HelloFaithful(more); }
    else if bs[0] == 1 { AcceptedFaithful(more); }
    else { TurnFaithful(more); }
  }

  /** A message is read from no other first byte than 0 to 4, and one without a map exactly where its
      bytes stand. */
  lemma MessageDecoder(bs: Bytes, m: ServerMessage, rest: Bytes)
    ensures bs == [] || bs[0] > 4 ==> ReadMessage(bs).None?
    ensures Encodable(m) && bs == MessageBytes(m) + rest ==> ReadMessage(bs) == Some((m, rest))
    ensures ReadMessage(bs) == Some((m, rest)) && !m.GameStarted? && !m.GameEnded? ==>
              Encodable(m) && bs == MessageBytes(m) + rest
  {
    hide MessageBytes, ReadMessage, Encodable;
    MapCodes(bs);
    MessageTrip(m);
    if Encodable(m) { assert RoundTrips(MessageBytes, ReadMessage, m); }
    MessageYields(bs);
    if ReadMessage(bs) == Some((m, rest)) && !m.GameStarted? && !m.GameEnded? { MessageFaithful(bs); }
  }

  /** A map is read entry by entry, and of two entries for one player the first counts. */
  lemma {:induction false} FirstEntryCounts<V>(es: seq<(u8, V)>, i: nat)
    requires i < |es| && forall j :: 0 <= j < i ==> es[j].0 != es[i].0
    ensures es[i].0 in FromEntries(es) && FromEntries(es)[es[i].0] == es[i].1
  {
    var n := |es| - 1;
    if i < n {
      FirstEntryCounts(es[..n], i);
    } else {
      KeysRead(es[..n]);
    }
  }

  lemma {:induction false} KeysRead<V>(es: seq<(u8, V)>)
    ensures forall q :: q in FromEntries(es) ==> exists j :: 0 <= j < |es| && es[j].0 == q
  {
    if es != [] {
      var n := |es| - 1;
      KeysRead(es[..n]);
      forall q | q in FromEntries(es) ensures exists j :: 0 <= j < |es| && es[j].0 == q {
        if q == es[n].0 {
          assert es[n].0 == q;
        } else {
          assert q in FromEntries(es[..n]);
          var j :| 0 <= j < |es[..n]| && es[..n][j].0 == q;
          assert es[j].0 == q;
        }
      }
    }
  }
}
