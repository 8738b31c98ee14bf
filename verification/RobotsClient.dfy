/** The client (robots-client.cpp:76-404, game-messages.h:79-230): globals updated while a message is
    being read. The received bytes are one contiguous stream here; ChunkedReads treats the buffers. */
module RobotsClient {
  import opened Types
  import opened Ordered
  import opened Blast
  import opened GameSpec
  import opened Wire
  import opened Replica
  import opened Replay
  import opened Runs
  import opened Sizes
  import opened Mirror
  import opened Positions
  import opened Protocol

  // ---------- reading lists front to back ----------

  function Prepend<T>(xs: seq<T>, r: Option<(seq<T>, Bytes)>): Option<(seq<T>, Bytes)> {
    match r
    case None => None
    case Some((ys, rest)) => Some((xs + ys, rest))
  }

  lemma ReadOneMore<T>(dec: Decoder<T>, xs: seq<T>, n: nat, bs: Bytes)
    requires n > 0
    ensures Prepend(xs, ReadMany(dec, n, bs)) ==
            match dec(bs) case None => None case Some((x, rest)) => Prepend(xs + [x], ReadMany(dec, n - 1, rest))
  {
    if dec(bs).Some? {
      var (x, rest) := dec(bs).value;
      if ReadMany(dec, n - 1, rest).Some? { Associates(xs, [x], ReadMany(dec, n - 1, rest).value.0); }
    }
  }

  lemma ReadEnds<T>(dec: Decoder<T>, xs: seq<T>, n: nat, bs: Bytes)
    ensures Prepend([], ReadMany(dec, n, bs)) == ReadMany(dec, n, bs)
    ensures Prepend(xs, ReadMany(dec, 0, bs)) == Some((xs, bs))
  {
    assert xs + [] == xs;
    if ReadMany(dec, n, bs).Some? {
      var ys := ReadMany(dec, n, bs).value.0;
      assert [] + ys == ys;
    }
  }

  /** A map is its size and then its entries. */
  lemma MapIsEntries<V>(dec: Decoder<V>, bs: Bytes)
    ensures ReadMap(dec)(bs) ==
            match ReadU32(bs)
            case None => None
            case Some((n, rest)) =>
              match ReadMany(ReadBoth(ReadU8, dec), n, rest)
              case None => None
              case Some((es, rest')) => Some((FromEntries(es), rest'))
  {
    hide ReadU32, ReadMany, FromEntries;
    var list := ReadList(ReadBoth(ReadU8, dec))(bs);
    if ReadU32(bs).Some? {
      var (n, rest) := ReadU32(bs).value;
      assert list == ReadMany(ReadBoth(ReadU8, dec), n, rest);
    }
  }

  lemma ReadsPair<V>(dec: Decoder<V>, bs: Bytes)
    ensures ReadBoth(ReadU8, dec)(bs) ==
            match ReadU8(bs)
            case None => None
            case Some((key, rest)) =>
              match dec(rest)
              case None => None
              case Some((value, rest')) => Some(((key, value), rest'))
  {
  }

  /** An event was read and applied, or one of the two failed. */
  ghost predicate Applied(alive: bool, got: Option<(Event, Bytes)>, before: GameInfo, after: GameInfo, rest: Bytes) {
    && (alive <==> got.Some? && ApplyToInfo(before, got.value.0).Some?)
    && (alive ==> got.value.1 == rest && ApplyToInfo(before, got.value.0) == Some(after))
  }

  /** Once an event cannot be applied, no later one helps. */
  lemma {:induction false} ApplyFails(i: GameInfo, xs: seq<Event>, ys: seq<Event>)
    requires ApplyAllToInfo(i, xs).None?
    ensures ApplyAllToInfo(i, xs + ys).None?
  {
    if ys == [] {
      assert xs + ys == xs;
    } else {
      LastOfConcat(xs, ys);
      ApplyFails(i, xs, ys[..|ys| - 1]);
    }
  }

  lemma ApplyOneMore(i: GameInfo, xs: seq<Event>, x: Event)
    ensures ApplyAllToInfo(i, xs + [x]) ==
            match ApplyAllToInfo(i, xs) case None => None case Some(j) => ApplyToInfo(j, x)
  {
    assert (xs + [x])[..|xs|] == xs;
  }

  lemma ApplyNothing(i: GameInfo)
    ensures ApplyAllToInfo(i, []) == Some(i)
  {
  }

  /** The events were read and applied in turn, or something failed. */
  ghost predicate AllApplied(alive: bool, got: Option<(seq<Event>, Bytes)>, before: GameInfo, after: GameInfo,
      rest: Bytes) {
    && (alive <==> got.Some? && ApplyAllToInfo(before, got.value.0).Some?)
    && (alive ==> got.value.1 == rest && ApplyAllToInfo(before, got.value.0) == Some(after))
  }

  lemma FailsLater(i: GameInfo, xs: seq<Event>, got: Option<(seq<Event>, Bytes)>)
    requires ApplyAllToInfo(i, xs).None?
    ensures Prepend(xs, got).Some? ==> ApplyAllToInfo(i, Prepend(xs, got).value.0).None?
  {
    if got.Some? { ApplyFails(i, xs, got.value.0); }
  }

  /** A message was read and applied, or one of the two failed. */
  ghost predicate Heard(alive: bool, got: Option<(ServerMessage, Bytes)>, before: Client, after: Client, rest: Bytes) {
    && (alive <==> got.Some? && Hears(before, got.value.0).Some?)
    && (alive ==> got.value.1 == rest && Hears(before, got.value.0) == Some(after))
  }

  lemma HearNothing(c: Client)
    ensures HearsAll(c, []) == Some(c)
  {
  }

  lemma HearOneMore(c: Client, ms: seq<ServerMessage>, m: ServerMessage)
    ensures HearsAll(c, ms + [m]) == match HearsAll(c, ms) case None => None case Some(d) => Hears(d, m)
  {
    assert (ms + [m])[..|ms|] == ms;
  }

  lemma HearFailsLater(c: Client, ms: seq<ServerMessage>, got: Option<(seq<ServerMessage>, Bytes)>)
    requires HearsAll(c, ms).None?
    ensures Prepend(ms, got).Some? ==> HearsAll(c, Prepend(ms, got).value.0).None?
  {
    if got.Some? { HearsPrefix(c, ms, got.value.0); }
  }

  lemma NothingApplied(got: Option<(Event, Bytes)>, i: GameInfo, rest: Bytes)
    requires got.None?
    ensures Applied(false, got, i, i, rest)
  {
  }

  function AsSet<T>(r: Option<(seq<T>, Bytes)>): Option<(set<T>, Bytes)> {
    match r
    case None => None
    case Some((xs, rest)) => Some((Elems(xs), rest))
  }

  lemma ElemsStart<T>(xs: seq<T>)
    requires xs == []
    ensures Elems(xs) == {}
  {
  }

  lemma ElemsGrow<T>(xs: seq<T>, x: T)
    ensures Elems(xs + [x]) == Elems(xs) + {x}
  {
  }

  lemma EntriesStart<V>(es: seq<(u8, V)>)
    requires es == []
    ensures FromEntries(es) == map[]
  {
  }

  lemma EntriesGrow<V>(es: seq<(u8, V)>, key: u8, value: V)
    ensures FromEntries(es + [(key, value)]) == Insert(FromEntries(es), key, value)
  {
    assert (es + [(key, value)])[..|es|] == es;
  }

  // ---------- game_info ----------

  /** The first loop of the Game_info constructor. It erases the score of a stranger while iterating
      over the scores, which C++ leaves undefined from there on: `defined` says it met none. */
  method ForgetStrangers(players: map<u8, Player>, given: map<u8, u32>) returns (scores: map<u8, u32>, defined: bool)
    ensures defined <==> given.Keys <= players.Keys
    ensures defined ==> scores == given
  {
    hide Sorted, Ascending;
    scores, defined := given, true;
    var known := Sorted8(given.Keys);
    for k := 0 to |known|
      invariant defined && scores == given && forall q :: q in known[..k] ==> q in players
    {
      assert known[..k + 1] == known[..k] + [known[k]];
      if known[k] !in players {
        assert known[k] in given.Keys;
        return scores - {known[k]}, false;
      }
    }
    assert known[..|known|] == known;
  }

  /** Its second loop: a player without a score gets 0. */
  method StartMissing(players: map<u8, Player>, given: map<u8, u32>) returns (scores: map<u8, u32>)
    requires given.Keys <= players.Keys
    ensures scores == map q | q in players :: if q in given then given[q] else 0
  {
    hide Sorted, Ascending;
    scores := given;
    var ids := Sorted8(players.Keys);
    for k := 0 to |ids|
      invariant scores == map q | q in players && (q in given || q in ids[..k]) :: if q in given then given[q] else 0
    {
      assert ids[..k + 1] == ids[..k] + [ids[k]];
      if ids[k] !in scores {
        scores := scores[ids[k] := 0];
      }
    }
    assert ids[..|ids|] == ids;
  }

  lemma ScoreNone(scores: map<u8, u32>, ids: seq<u8>)
    ensures Score(scores, Elems(ids[..0])) == scores && Elems(ids[..0]) == {}
  {
  }

  lemma ElemsSorted(s: set<u8>)
    ensures Elems(Sorted8(s)) == s
  {
  }

  lemma ScoreOneMore(scores: map<u8, u32>, ids: seq<u8>, k: nat)
    requires Ascending(ids) && k < |ids| && ids[k] in scores
    ensures Score(Score(scores, Elems(ids[..k])), {ids[k]}) == Score(scores, Elems(ids[..k + 1]))
    ensures Elems(ids[..k + 1]) == Elems(ids[..k]) + {ids[k]}
  {
    assert ids[..k + 1] == ids[..k] + [ids[k]];
    assert ids[k] !in ids[..k];
  }

  class GameRecord {
    var serverName: seq<u8>
    var sizeX: u16
    var sizeY: u16
    var gameLength: u16
    var bombTimer: u16
    var turn: u16
    var players: map<u8, Player>
    var positions: map<u8, Position>
    var blocks: set<Position>
    var bombs: map<u32, Bomb>
    var explosions: set<Position>
    var scores: map<u8, u32>

    function View(): GameInfo
      reads this
    {
      GameInfo(serverName, sizeX, sizeY, gameLength, bombTimer, turn, players, positions, blocks, bombs,
          explosions, scores)
    }

    constructor ()
    {
      new;
    }

    method AssignHeader(l: LobbyInfo)
      modifies this`serverName, this`sizeX, this`sizeY, this`gameLength, this`bombTimer, this`turn, this`players
      ensures serverName == l.serverName && sizeX == l.sizeX && sizeY == l.sizeY && gameLength == l.gameLength
      ensures bombTimer == l.bombTimer && turn == 0 && players == l.players
    {
      serverName, sizeX, sizeY, gameLength, bombTimer, turn := l.serverName, l.sizeX, l.sizeY, l.gameLength,
          l.bombTimer, 0;
      players := l.players;
    }

    method ClearBoard()
      modifies this`positions, this`blocks, this`bombs, this`explosions
      ensures positions == map[] && blocks == {} && bombs == map[] && explosions == {}
    {
      positions, blocks, bombs, explosions := map[], {}, map[], {};
    }

    /** The constructor used for a new game, assigned over the old record. */
    method Renew(l: LobbyInfo, given: map<u8, u32>) returns (defined: bool)
      modifies this
      ensures defined <==> given.Keys <= l.players.Keys
      ensures defined ==> View() == NewGame(l, given)
    {
      var starting;
      starting, defined := ForgetStrangers(l.players, given);
      if !defined {
        return;
      }
      starting := StartMissing(l.players, starting);
      AssignHeader(l);
      ClearBoard();
      scores := starting;
    }

    method NewTurn(t: u16)
      modifies this`explosions, this`turn
      ensures View() == old(View()).(turn := t, explosions := {})
    {
      explosions := {};
      turn := t;
    }

    method AddBomb(id: u32, c: Position)
      modifies this`bombs
      ensures ApplyToInfo(old(View()), BombPlaced(id, c)) == Some(View())
    {
      bombs := Insert(bombs, id, Bomb(c, bombTimer));
    }

    method AddBlock(c: Position)
      modifies this`blocks
      ensures ApplyToInfo(old(View()), BlockPlaced(c)) == Some(View())
    {
      blocks := blocks + {c};
    }

    method ChangePlayerPosition(id: u8, c: Position)
      modifies this`positions
      ensures ApplyToInfo(old(View()), PlayerMoved(id, c)) == Some(View())
    {
      positions := Insert(positions, id, c);
    }

    method RemoveBomb(id: u32)
      modifies this`bombs
      ensures bombs == old(bombs) - {id}
    {
      bombs := bombs - {id};
    }

    method RemoveBlock(c: Position)
      modifies this`blocks
      ensures blocks == old(blocks) - {c}
    {
      blocks := blocks - {c};
    }

    /** False stands for the std::out_of_range of scores.at. */
    method DestroyPlayer(id: u8) returns (alive: bool)
      modifies this`positions, this`scores
      ensures alive <==> id in old(scores)
      ensures alive ==> positions == old(positions) - {id} && scores == Score(old(scores), {id})
    {
      positions := positions - {id};
      if id !in scores {
        return false;
      }
      scores := scores[id := Add32(scores[id], 1)];
      return true;
    }

    /** The loop over the robots of an explosion. */
    method DestroyPlayers(robots: set<u8>) returns (alive: bool)
      modifies this`positions, this`scores
      ensures alive <==> robots <= old(scores).Keys
      ensures alive ==> positions == old(positions) - robots && scores == Score(old(scores), robots)
    {
      hide Sorted, Ascending, Score, Elems;
      var ids := Sorted8(robots);
      ScoreNone(scores, ids);
      ElemsSorted(robots);
      for k := 0 to |ids|
        invariant forall i :: 0 <= i < k ==> ids[i] in old(scores)
        invariant positions == old(positions) - Elems(ids[..k]) && scores == Score(old(scores), Elems(ids[..k]))
      {
        alive := DestroyPlayer(ids[k]);
        if !alive {
          return;
        }
        ScoreOneMore(old(scores), ids, k);
      }
      assert ids[..|ids|] == ids;
      return true;
    }

    /** The loop over the blocks of an explosion, in no particular order. */
    method RemoveBlocks(torn: set<Position>)
      modifies this`blocks
      ensures blocks == old(blocks) - torn
    {
      var todo := torn;
      while todo != {}
        invariant todo <= torn && blocks == old(blocks) - (torn - todo)
        decreases |todo|
      {
        var c :| c in todo;
        RemoveBlock(c);
        todo := todo - {c};
      }
    }
  }

  class LobbyRecord {
    var serverName: seq<u8>
    var playersCount: u8
    var sizeX: u16
    var sizeY: u16
    var gameLength: u16
    var explosionRadius: u16
    var bombTimer: u16
    var players: map<u8, Player>

    function View(): LobbyInfo
      reads this
    {
      LobbyInfo(serverName, playersCount, sizeX, sizeY, gameLength, explosionRadius, bombTimer, players)
    }

    constructor ()
    {
      new;
    }

    method Assign(name: seq<u8>, count: u8, x: u16, y: u16, length: u16, radius: u16, timer: u16)
      modifies this
      ensures View() == LobbyInfo(name, count, x, y, length, radius, timer, map[])
    {
      serverName, playersCount, sizeX, sizeY, gameLength, explosionRadius, bombTimer := name, count, x, y, length,
          radius, timer;
      players := map[];
    }

    method AddPlayer(id: u8, player: Player)
      modifies this`players
      ensures View() == old(View()).(players := Insert(old(players), id, player))
    {
      players := Insert(players, id, player);
    }

    method ClearPlayers()
      modifies this`players
      ensures View() == old(View()).(players := map[])
    {
      players := map[];
    }
  }

  // ---------- the reading functions and the message handlers ----------

  class RobotsClient {
    var stream: Bytes
    const lobby: LobbyRecord
    const game: GameRecord
    var inLobby: bool

    function View(): Client
      reads this, lobby, game
    {
      Client(lobby.View(), game.View(), inLobby)
    }

    constructor (stream: Bytes)
      ensures this.stream == stream && fresh(lobby) && fresh(game)
    {
      this.stream := stream;
      lobby := new LobbyRecord();
      game := new GameRecord();
      inLobby := true;
    }

    method ReadUint8() returns (r: Option<u8>)
      modifies this`stream
      ensures Agrees(r, ReadU8(old(stream)), stream)
    {
      if |stream| < 1 {
        return None;
      }
      r := Some(stream[0]);
      stream := stream[1..];
    }

    method ReadUint16() returns (r: Option<u16>)
      modifies this`stream
      ensures Agrees(r, ReadU16(old(stream)), stream)
    {
      if |stream| < 2 {
        return None;
      }
      r := Some(Join8(stream[0], stream[1]));
      stream := stream[2..];
    }

    method ReadUint32() returns (r: Option<u32>)
      modifies this`stream
      ensures Agrees(r, ReadU32(old(stream)), stream)
    {
      if |stream| < 4 {
        return None;
      }
      r := Some(0x1_0000 * Join8(stream[0], stream[1]) + Join8(stream[2], stream[3]));
      stream := stream[4..];
    }

    method ReadStr() returns (r: Option<seq<u8>>)
      modifies this`stream
      ensures Agrees(r, ReadString(old(stream)), stream)
    {
      var length := ReadUint8();
      if length.None? || |stream| < length.value {
        return None;
      }
      ghost var bs := old(stream);
      assert bs[1..][..bs[0]] == bs[1..1 + bs[0]] && bs[1..][bs[0]..] == bs[1 + bs[0]..];
      r := Some(stream[..length.value]);
      stream := stream[length.value..];
    }

    method ReadOnePlayer() returns (r: Option<Player>)
      modifies this`stream
      ensures Agrees(r, ReadPlayer(old(stream)), stream)
    {
      var name := ReadStr();
      if name.None? {
        return None;
      }
      var address := ReadStr();
      if address.None? {
        return None;
      }
      return Some(Player(name.value, address.value));
    }

    method ReadOnePosition() returns (r: Option<Position>)
      modifies this`stream
      ensures Agrees(r, ReadPosition(old(stream)), stream)
    {
      var x := ReadUint16();
      if x.None? {
        return None;
      }
      var y := ReadUint16();
      if y.None? {
        return None;
      }
      return Some(Position(x.value, y.value));
    }

    method ReadPlayersMap() returns (r: Option<map<u8, Player>>)
      modifies this`stream
      ensures Agrees(r, ReadMap(ReadPlayer)(old(stream)), stream)
    {
      hide ReadU8, ReadU32, ReadPlayer, ReadMany, FromEntries, ReadMap, ReadBoth;
      ghost var dec := ReadBoth(ReadU8, ReadPlayer);
      MapIsEntries(ReadPlayer, stream);
      var size := ReadUint32();
      if size.None? {
        return None;
      }
      ghost var bs, es: seq<(u8, Player)> := stream, [];
      var players: map<u8, Player> := map[];
      ReadEnds(dec, [], size.value, bs);
      EntriesStart(es);
      for i := 0 to size.value
        invariant ReadMany(dec, size.value, bs) == Prepend(es, ReadMany(dec, size.value - i, stream))
        invariant players == FromEntries(es)
      {
        ReadOneMore(dec, es, size.value - i, stream);
        ReadsPair(ReadPlayer, stream);
        var key := ReadUint8();
        if key.None? {
          return None;
        }
        var value := ReadOnePlayer();
        if value.None? {
          return None;
        }
        EntriesGrow(es, key.value, value.value);
        players := Insert(players, key.value, value.value);
        es := es + [(key.value, value.value)];
      }
      ReadEnds(dec, es, 0, stream);
      return Some(players);
    }

    method ReadScoresMap() returns (r: Option<map<u8, u32>>)
      modifies this`stream
      ensures Agrees(r, ReadMap(ReadU32)(old(stream)), stream)
    {
      hide ReadU8, ReadU32, ReadMany, FromEntries, ReadMap, ReadBoth;
      ghost var dec := ReadBoth(ReadU8, ReadU32);
      MapIsEntries(ReadU32, stream);
      var size := ReadUint32();
      if size.None? {
        return None;
      }
      ghost var bs, es: seq<(u8, u32)> := stream, [];
      var scores: map<u8, u32> := map[];
      ReadEnds(dec, [], size.value, bs);
      EntriesStart(es);
      for i := 0 to size.value
        invariant ReadMany(dec, size.value, bs) == Prepend(es, ReadMany(dec, size.value - i, stream))
        invariant scores == FromEntries(es)
      {
        ReadOneMore(dec, es, size.value - i, stream);
        ReadsPair(ReadU32, stream);
        var key := ReadUint8();
        if key.None? {
          return None;
        }
        var value := ReadUint32();
        if value.None? {
          return None;
        }
        EntriesGrow(es, key.value, value.value);
        scores := Insert(scores, key.value, value.value);
        es := es + [(key.value, value.value)];
      }
      ReadEnds(dec, es, 0, stream);
      return Some(scores);
    }

    /** A list on the wire becomes a set. */
    method ReadPlayerIdList() returns (r: Option<set<u8>>)
      modifies this`stream
      ensures Agrees(r, AsSet(ReadList(ReadU8)(old(stream))), stream)
    {
      hide ReadU8, ReadU32, ReadMany, Elems;
      var size := ReadUint32();
      if size.None? {
        return None;
      }
      ghost var bs, xs: seq<u8> := stream, [];
      var ids: set<u8> := {};
      ReadEnds(ReadU8, [], size.value, bs);
      ElemsStart(xs);
      for i := 0 to size.value
        invariant ReadMany(ReadU8, size.value, bs) == Prepend(xs, ReadMany(ReadU8, size.value - i, stream))
        invariant ids == Elems(xs)
      {
        ReadOneMore(ReadU8, xs, size.value - i, stream);
        var id := ReadUint8();
        if id.None? {
          return None;
        }
        ElemsGrow(xs, id.value);
        ids := ids + {id.value};
        xs := xs + [id.value];
      }
      ReadEnds(ReadU8, xs, 0, stream);
      return Some(ids);
    }

    method ReadPositionList() returns (r: Option<set<Position>>)
      modifies this`stream
      ensures Agrees(r, AsSet(ReadList(ReadPosition)(old(stream))), stream)
    {
      hide ReadPosition, ReadU32, ReadMany, Elems;
      var size := ReadUint32();
      if size.None? {
        return None;
      }
      ghost var bs, xs: seq<Position> := stream, [];
      var cells: set<Position> := {};
      ReadEnds(ReadPosition, [], size.value, bs);
      ElemsStart(xs);
      for i := 0 to size.value
        invariant ReadMany(ReadPosition, size.value, bs) == Prepend(xs, ReadMany(ReadPosition, size.value - i, stream))
        invariant cells == Elems(xs)
      {
        ReadOneMore(ReadPosition, xs, size.value - i, stream);
        var c := ReadOnePosition();
        if c.None? {
          return None;
        }
        ElemsGrow(xs, c.value);
        cells := cells + {c.value};
        xs := xs + [c.value];
      }
      ReadEnds(ReadPosition, xs, 0, stream);
      return Some(cells);
    }

    method BombPlacedRead() returns (alive: bool)
      modifies this`stream, game
      ensures Applied(alive, ReadBombPlaced(old(stream)), old(game.View()), game.View(), stream)
    {
      var id := ReadUint32();
      if id.None? {
        return false;
      }
      var c := ReadOnePosition();
      if c.None? {
        return false;
      }
      game.AddBomb(id.value, c.value);
      return true;
    }

    /** The bomb goes before the lists are read, and the robots before the blocks are. */
    method BombExplodedRead() returns (alive: bool)
      modifies this`stream, game
      ensures Applied(alive, ReadBombExploded(old(stream)), old(game.View()), game.View(), stream)
    {
      hide ReadU32, ReadU8, ReadPosition, ReadMany, Elems, ReadList;
      var id := ReadUint32();
      if id.None? {
        return false;
      }
      game.RemoveBomb(id.value);
      var robots := ReadPlayerIdList();
      if robots.None? {
        return false;
      }
      alive := game.DestroyPlayers(robots.value);
      if !alive {
        return;
      }
      var blocks := ReadPositionList();
      if blocks.None? {
        return false;
      }
      game.RemoveBlocks(blocks.value);
      return true;
    }

    method PlayerMovedRead() returns (alive: bool)
      modifies this`stream, game
      ensures Applied(alive, ReadPlayerMoved(old(stream)), old(game.View()), game.View(), stream)
    {
      var id := ReadUint8();
      if id.None? {
        return false;
      }
      var c := ReadOnePosition();
      if c.None? {
        return false;
      }
      game.ChangePlayerPosition(id.value, c.value);
      return true;
    }

    method BlockPlacedRead() returns (alive: bool)
      modifies this`stream, game
      ensures Applied(alive, ReadBlockPlaced(old(stream)), old(game.View()), game.View(), stream)
    {
      var c := ReadOnePosition();
      if c.None? {
        return false;
      }
      game.AddBlock(c.value);
      return true;
    }

    method EventRead() returns (alive: bool)
      modifies this`stream, game
      ensures Applied(alive, ReadEvent(old(stream)), old(game.View()), game.View(), stream)
    {
      hide ReadBombPlaced, ReadBombExploded, ReadPlayerMoved, ReadBlockPlaced, Applied;
      var code := ReadUint8();
      if code.None? {
        NothingApplied(ReadEvent(old(stream)), game.View(), stream);
        return false;
      }
      if code.value == BOMB_PLACED {
        alive := BombPlacedRead();
      } else if code.value == BOMB_EXPLODED {
        alive := BombExplodedRead();
      } else if code.value == PLAYER_MOVED {
        alive := PlayerMovedRead();
      } else if code.value == BLOCK_PLACED {
        alive := BlockPlacedRead();
      } else {
        NothingApplied(ReadEvent(old(stream)), game.View(), stream);
        return false;
      }
    }

    /** Each event takes effect as soon as it is read. */
    method EventListRead() returns (alive: bool)
      modifies this`stream, game
      ensures AllApplied(alive, ReadList(ReadEvent)(old(stream)), old(game.View()), game.View(), stream)
    {
      hide ReadEvent, ReadU32, ReadMany, ApplyToInfo, ApplyAllToInfo;
      var size := ReadUint32();
      if size.None? {
        return false;
      }
      ghost var bs, xs: seq<Event>, before := stream, [], game.View();
      ReadEnds(ReadEvent, [], size.value, bs);
      ApplyNothing(before);
      for i := 0 to size.value
        invariant ReadMany(ReadEvent, size.value, bs) == Prepend(xs, ReadMany(ReadEvent, size.value - i, stream))
        invariant ApplyAllToInfo(before, xs) == Some(game.View())
      {
        ReadOneMore(ReadEvent, xs, size.value - i, stream);
        ghost var got := ReadEvent(stream);
        if got.Some? { ApplyOneMore(before, xs, got.value.0); }
        alive := EventRead();
        if !alive {
          if got.Some? { FailsLater(before, xs + [got.value.0], ReadMany(ReadEvent, size.value - i - 1, got.value.1)); }
          return;
        }
        xs := xs + [got.value.0];
      }
      ReadEnds(ReadEvent, xs, 0, stream);
      return true;
    }

    // ---------- messages ----------

    method HandleHello() returns (alive: bool)
      modifies this`stream, this`inLobby, lobby
      ensures Heard(alive, ReadHello(old(stream)), old(View()), View(), stream)
    {
      var name := ReadStr();
      if name.None? { return false; }
      var count := ReadUint8();
      if count.None? { return false; }
      var x := ReadUint16();
      if x.None? { return false; }
      var y := ReadUint16();
      if y.None? { return false; }
      var length := ReadUint16();
      if length.None? { return false; }
      var radius := ReadUint16();
      if radius.None? { return false; }
      var timer := ReadUint16();
      if timer.None? { return false; }
      lobby.Assign(name.value, count.value, x.value, y.value, length.value, radius.value, timer.value);
      inLobby := true;
      return true;
    }

    method HandleAcceptedPlayer() returns (alive: bool)
      modifies this`stream, lobby
      ensures Heard(alive, ReadAccepted(old(stream)), old(View()), View(), stream)
    {
      var id := ReadUint8();
      if id.None? {
        return false;
      }
      var player := ReadOnePlayer();
      if player.None? {
        return false;
      }
      lobby.AddPlayer(id.value, player.value);
      return true;
    }

    /** The new record is made from what the lobby knows; the players in the message are dropped. */
    method HandleGameStarted() returns (alive: bool)
      modifies this`stream, this`inLobby, game
      ensures Heard(alive, ReadGameStarted(old(stream)), old(View()), View(), stream)
    {
      hide NewGame, ReadPlayer, ReadMap;
      var _ := game.Renew(lobby.View(), map[]);
      var players := ReadPlayersMap();
      if players.None? {
        return false;
      }
      inLobby := false;
      return true;
    }

    method HandleTurn() returns (alive: bool)
      modifies this`stream, game
      ensures Heard(alive, ReadTurn(old(stream)), old(View()), View(), stream)
    {
      hide ReadU16, ReadEvent, ApplyAllToInfo, ReadList;
      var turn := ReadUint16();
      if turn.None? {
        return false;
      }
      game.NewTurn(turn.value);
      alive := EventListRead();
    }

    method HandleGameEnded() returns (alive: bool)
      modifies this`stream, this`inLobby, lobby
      ensures Heard(alive, ReadGameEnded(old(stream)), old(View()), View(), stream)
    {
      hide ReadU32, ReadMap;
      var scores := ReadScoresMap();
      if scores.None? {
        return false;
      }
      lobby.ClearPlayers();
      inLobby := true;
      return true;
    }

    /** Reads one message and applies it; false stands for the ways the client process ends. */
    method HandleServerMessage() returns (alive: bool)
      modifies this`stream, this`inLobby, lobby, game
      ensures Heard(alive, ReadMessage(old(stream)), old(View()), View(), stream)
    {
      hide ReadHello, ReadAccepted, ReadGameStarted, ReadTurn, ReadGameEnded, Hears;
      var code := ReadUint8();
      if code.None? {
        return false;
      }
      if code.value == HELLO {
        alive := HandleHello();
      } else if code.value == ACCEPTED_PLAYER {
        alive := HandleAcceptedPlayer();
      } else if code.value == GAME_STARTED {
        alive := HandleGameStarted();
      } else if code.value == TURN {
        alive := HandleTurn();
      } else if code.value == GAME_ENDED {
        alive := HandleGameEnded();
      } else {
        return false;
      }
    }

    /** The receiving thread, for `n` messages: the client ends where the specification says, having
        used exactly the bytes of those messages. */
    method HandleServerMessages(n: nat) returns (alive: bool)
      modifies this`stream, this`inLobby, lobby, game
      ensures alive <==> ReadMany(ReadMessage, n, old(stream)).Some? &&
                         HearsAll(old(View()), ReadMany(ReadMessage, n, old(stream)).value.0).Some?
      ensures alive ==> ReadMany(ReadMessage, n, old(stream)).value.1 == stream &&
                        HearsAll(old(View()), ReadMany(ReadMessage, n, old(stream)).value.0) == Some(View())
    {
      hide ReadMessage, ReadMany, Hears, HearsAll;
      ghost var bs, ms: seq<ServerMessage>, before := stream, [], View();
      ReadEnds(ReadMessage, [], n, bs);
      HearNothing(before);
      for i := 0 to n
        invariant ReadMany(ReadMessage, n, bs) == Prepend(ms, ReadMany(ReadMessage, n - i, stream))
        invariant HearsAll(before, ms) == Some(View())
      {
        ReadOneMore(ReadMessage, ms, n - i, stream);
        ghost var got := ReadMessage(stream);
        if got.Some? { HearOneMore(before, ms, got.value.0); }
        alive := HandleServerMessage();
        if !alive {
          if got.Some? { HearFailsLater(before, ms + [got.value.0], ReadMany(ReadMessage, n - i - 1, got.value.1)); }
          return;
        }
        ms := ms + [got.value.0];
      }
      ReadEnds(ReadMessage, ms, 0, stream);
      return true;
    }

    /** End to end: fed the bytes of what the server sends to its slot, the client survives if and only if
        the run destroys no player it misses, and then uses them all; from a lobby on it then holds,
        after every completed turn, the server's blocks and bombs, these with the timer the game began
        with, the turn's number, scores no lower than the server's, and every robot on the cell where it
        last started or respawned. */
    method MirrorServer(ghost p: Params, ghost rng: Rng, ghost s: Server, ghost steps: seq<Step>, ghost s': Server,
                        ghost slot: nat, n: nat) returns (alive: bool)
      requires p.Valid() && Reachable(p, rng, s) && Leads(p, rng, s, steps, s') && ShortHellos(News(s, s', slot))
      requires n == |News(s, s', slot)| && stream == Concat(MessageBytes, News(s, s', slot))
      modifies this`stream, this`inLobby, lobby, game
      ensures alive <==> RunSpares(p, rng, s, steps, s', Missing(s, old(View())), slot)
      ensures alive ==> stream == []
      ensures alive && !s.game.started && s'.game.started && !s'.control.Polling? ==>
                && game.blocks == s'.game.blocks && game.bombs == BombsWith(s'.game.bombs, game.bombTimer)
                && !inLobby && game.turn == s'.game.turn
                && (LobbyOf(p, old(View()).lobby) ==> GameOf(p, game.View()))
                && (forall q :: q in game.scores && q in s'.game.scores ==> s'.game.scores[q] <= game.scores[q])
                && s'.game.turns != [] && game.positions.Keys == s'.game.positions.Keys
                && forall q :: q in game.positions ==> SeededAt(s'.game.turns, q, game.positions[q])
      ensures !s.game.started && old(lobby.players).Keys == s.game.players.Keys &&
              Undisturbed(p, rng, s, steps, s', slot) ==>
                alive && (s'.game.started && !s'.control.Polling? ==> game.scores.Keys == s'.game.scores.Keys)
    {
      hide Reachable, Leads, RunSpares, Missing, Undisturbed, ReadMessage, ReadMany, Hears, HearsAll, News,
           MessageBytes, SeededAt, LobbyOf, GameOf;
      SentBytesReadBack(p, rng, s, steps, s', slot);
      ClientSurvivesExactly(p, rng, s, steps, s', View(), slot);
      ghost var before := View();
      alive := HandleServerMessages(n);
      if !s.game.started && before.lobby.players.Keys == s.game.players.Keys &&
         Undisturbed(p, rng, s, steps, s', slot) {
        ClientMirrorsServer(p, rng, s, steps, s', before, slot);
      }
      if alive && !s.game.started && s'.game.started && !s'.control.Polling? {
        SurvivorMirrors(p, rng, s, steps, s', before, slot);
        ShowsWhereSeeded(p, rng, s, steps, s', before, slot);
        SurvivorIsCurrent(p, rng, s, steps, s', before, slot);
      }
    }
  }
}
