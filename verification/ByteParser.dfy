/** The encoders as the source runs them (byte-parser.cpp, event.cpp, game-engine.cpp:233-362,
    robots-client.cpp:559-594): vectors filled push by push, each proved to hold the bytes that Wire
    and ClientMessages say. */
module ByteParser {
  import opened Types
  import opened Ordered
  import opened Wire
  import opened ClientMessages

  method Uint16ToBytes(n: u16) returns (msg: Bytes)
    ensures msg == U16Bytes(n)
  {
    msg := [];
    msg := msg + [n / 0x100];
    msg := msg + [n % 0x100];
  }

  /** Shifting the whole word is splitting it into halves first. */
  lemma Shifts(n: u32)
    ensures n / 0x100_0000 % 0x100 == n / 0x1_0000 / 0x100
    ensures n / 0x100 % 0x100 == n % 0x1_0000 / 0x100
    ensures n % 0x100 == n % 0x1_0000 % 0x100
  {
    var a, b := n / 0x1_0000 / 0x100, n / 0x1_0000 % 0x100;
    var c, d := n % 0x1_0000 / 0x100, n % 0x1_0000 % 0x100;
    assert n == 0x100_0000 * a + 0x1_0000 * b + 0x100 * c + d;
    assert n / 0x100_0000 == a;
    assert n / 0x100 == 0x100 * (0x100 * a + b) + c;
  }

  /** Four shifts, each truncated to its low byte. */
  method Uint32ToBytes(n: u32) returns (msg: Bytes)
    ensures msg == U32Bytes(n)
  {
    Shifts(n);
    msg := [];
    msg := msg + [n / 0x100_0000 % 0x100];
    msg := msg + [n / 0x1_0000 % 0x100];
    msg := msg + [n / 0x100 % 0x100];
    msg := msg + [n % 0x100];
  }

  method StringToBytes(str: seq<u8>) returns (msg: Bytes)
    ensures msg == StringBytes(str)
  {
    var message := new u8[|str| + 1];
    message[0] := |str| % 0x100;
    for i := 0 to |str|
      invariant message[0] == |str| % 0x100
      invariant message[1..1 + i] == str[..i]
    {
      message[1 + i] := str[i];
    }
    msg := message[..];
  }

  method PlayerToBytes(player: Player) returns (msg: Bytes)
    ensures msg == PlayerBytes(player)
  {
    var name := StringToBytes(player.name);
    var address := StringToBytes(player.address);
    msg := name + address;
  }

  method PositionToBytes(c: Position) returns (msg: Bytes)
    ensures msg == PositionBytes(c)
  {
    var x := Uint16ToBytes(c.x);
    var y := Uint16ToBytes(c.y);
    msg := x + y;
  }

  /** Appending one more element's bytes to an encoded list. */
  lemma ListGrows<T>(enc: T -> Bytes, size: Bytes, xs: seq<T>, k: nat)
    requires k < |xs|
    ensures size + Concat(enc, xs[..k + 1]) == size + Concat(enc, xs[..k]) + enc(xs[k])
  {
    assert xs[..k + 1] == xs[..k] + [xs[k]];
    ConcatAppend(enc, xs[..k], xs[k]);
    Associates(size, Concat(enc, xs[..k]), enc(xs[k]));
  }

  lemma ListStarts<T>(enc: T -> Bytes, size: Bytes, xs: seq<T>)
    ensures size + Concat(enc, xs[..0]) == size && xs[..|xs|] == xs
  {
  }

  method Uint8ListToBytes(elements: seq<u8>) returns (msg: Bytes)
    ensures msg == ListBytes(U8Bytes, elements)
  {
    hide U32Bytes, Concat;
    msg := Uint32ToBytes(|elements| % 0x1_0000_0000);
    ghost var size := msg;
    ListStarts(U8Bytes, size, elements);
    for k := 0 to |elements|
      invariant msg == size + Concat(U8Bytes, elements[..k])
    {
      ListGrows(U8Bytes, size, elements, k);
      msg := msg + [elements[k]];
    }
  }

  method PositionListToBytes(positions: seq<Position>) returns (msg: Bytes)
    ensures msg == ListBytes(PositionBytes, positions)
  {
    hide U32Bytes, Concat;
    msg := Uint32ToBytes(|positions| % 0x1_0000_0000);
    ghost var size := msg;
    ListStarts(PositionBytes, size, positions);
    for k := 0 to |positions|
      invariant msg == size + Concat(PositionBytes, positions[..k])
    {
      ListGrows(PositionBytes, size, positions, k);
      var position := PositionToBytes(positions[k]);
      msg := msg + position;
    }
  }

  lemma EntriesAre<V>(m: map<u8, V>)
    ensures |Entries(m)| == |m| == |Sorted8(m.Keys)| <= 0x100
    ensures forall k :: 0 <= k < |Entries(m)| ==> Entries(m)[k] == (Sorted8(m.Keys)[k], m[Sorted8(m.Keys)[k]])
  {
    BoundedCard(m.Keys, 0x100);
  }

  method PlayerMapToBytes(players: map<u8, Player>) returns (msg: Bytes)
    ensures msg == MapBytes(PlayerBytes, players)
  {
    hide U32Bytes, Concat, Entries, Sorted, PlayerBytes;
    ghost var enc, es := Both(U8Bytes, PlayerBytes), Entries(players);
    EntriesAre(players);
    msg := Uint32ToBytes(|players|);
    ghost var size := msg;
    ListStarts(enc, size, es);
    var ids := Sorted8(players.Keys);
    for k := 0 to |ids|
      invariant msg == size + Concat(enc, es[..k])
    {
      ListGrows(enc, size, es, k);
      msg := msg + [ids[k]];
      var player := PlayerToBytes(players[ids[k]]);
      Associates(size + Concat(enc, es[..k]), [ids[k]], player);
      msg := msg + player;
    }
  }

  method ScoreMapToBytes(scores: map<u8, u32>) returns (msg: Bytes)
    ensures msg == MapBytes(U32Bytes, scores)
  {
    hide U32Bytes, Concat, Entries, Sorted;
    ghost var enc, es := Both(U8Bytes, U32Bytes), Entries(scores);
    EntriesAre(scores);
    msg := Uint32ToBytes(|scores|);
    ghost var size := msg;
    ListStarts(enc, size, es);
    var ids := Sorted8(scores.Keys);
    for k := 0 to |ids|
      invariant msg == size + Concat(enc, es[..k])
    {
      ListGrows(enc, size, es, k);
      msg := msg + [ids[k]];
      var score := Uint32ToBytes(scores[ids[k]]);
      Associates(size + Concat(enc, es[..k]), [ids[k]], score);
      msg := msg + score;
    }
  }

  // ---------- events and messages ----------

  method EventToBytes(e: Event) returns (msg: Bytes)
    ensures msg == EventBytes(e)
  {
    hide U32Bytes, PositionBytes, ListBytes;
    match e
    case BombPlaced(id, c) =>
      var i := Uint32ToBytes(id);
      var p := PositionToBytes(c);
      msg := [BOMB_PLACED] + i + p;
    case BombExploded(id, robots, blocks) =>
      var i := Uint32ToBytes(id);
      var r := Uint8ListToBytes(robots);
      var b := PositionListToBytes(blocks);
      msg := [BOMB_EXPLODED] + i + r + b;
    case PlayerMoved(id, c) =>
      var p := PositionToBytes(c);
      msg := [PLAYER_MOVED] + [id] + p;
    case BlockPlaced(c) =>
      var p := PositionToBytes(c);
      msg := [BLOCK_PLACED] + p;
  }

  method TurnToBytes(info: TurnInfo) returns (msg: Bytes)
    ensures msg == MessageBytes(Turn(info))
  {
    hide U16Bytes, U32Bytes, Concat, EventBytes;
    msg := [TURN];
    var turn := Uint16ToBytes(info.turn);
    msg := msg + turn;
    var length := Uint32ToBytes(|info.events| % 0x1_0000_0000);
    msg := msg + length;
    ghost var head := msg;
    ListStarts(EventBytes, head, info.events);
    for k := 0 to |info.events|
      invariant msg == head + Concat(EventBytes, info.events[..k])
    {
      ListGrows(EventBytes, head, info.events, k);
      var event := EventToBytes(info.events[k]);
      msg := msg + event;
    }
    Associates([TURN] + turn, length, Concat(EventBytes, info.events));
    Associates([TURN], turn, length + Concat(EventBytes, info.events));
  }

  method HelloToBytes(m: ServerMessage) returns (msg: Bytes)
    requires m.Hello?
    ensures msg == MessageBytes(m)
  {
    hide StringBytes, U16Bytes;
    var name := StringToBytes(m.serverName);
    var x := Uint16ToBytes(m.sizeX);
    var y := Uint16ToBytes(m.sizeY);
    var length := Uint16ToBytes(m.gameLength);
    var radius := Uint16ToBytes(m.explosionRadius);
    var timer := Uint16ToBytes(m.bombTimer);
    msg := [HELLO];
    msg := msg + name;
    msg := msg + [m.playersCount];
    msg := msg + x;
    msg := msg + y;
    msg := msg + length;
    msg := msg + radius;
    msg := msg + timer;
  }

  /** The bytes of any server message are those its decoder reads back. */
  method MessageToBytes(m: ServerMessage) returns (msg: Bytes)
    ensures msg == MessageBytes(m)
    ensures Encodable(m) <==> ReadMessage(msg) == Some((m, []))
  {
    hide PlayerBytes, U32Bytes, MapBytes, ReadMessage, Encodable;
    match m {
    case Hello(_, _, _, _, _, _, _) =>
      msg := HelloToBytes(m);
    case AcceptedPlayer(id, player) =>
      var p := PlayerToBytes(player);
      msg := [ACCEPTED_PLAYER] + [id] + p;
    case GameStarted(players) =>
      var p := PlayerMapToBytes(players);
      msg := [GAME_STARTED] + p;
    case Turn(info) =>
      msg := TurnToBytes(info);
    case GameEnded(scores) =>
      var s := ScoreMapToBytes(scores);
      msg := [GAME_ENDED] + s;
    }
    if Encodable(m) {
      MessageTrip(m);
      assert MessageBytes(m) + [] == MessageBytes(m);
      assert ReadMessage(MessageBytes(m) + []) == Some((m, []));
    }
    MessageYields(msg);
  }

  /** The bytes of any client message are ones the server accepts as that message. */
  method ClientMessageToBytes(m: ClientMessage) returns (msg: Bytes)
    ensures msg == ClientBytes(m)
    ensures Short(m) ==> ParseBuffer(msg) == Some(m)
  {
    match m {
    case Join(name) =>
      var n := StringToBytes(name);
      msg := [JOIN] + n;
    case PlaceBomb =>
      msg := [PLACE_BOMB];
    case PlaceBlock =>
      msg := [PLACE_BLOCK];
    case Move(d) =>
      msg := [MOVE] + [d];
    }
    if Short(m) {
      assert [m][1..] == [] && ClientBytes(m) + [] == ClientBytes(m);
      assert Concat(ClientBytes, [m]) == ClientBytes(m);
      WholeMessagesAccepted([m]);
    }
  }
}
