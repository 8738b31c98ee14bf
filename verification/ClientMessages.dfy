/** Client messages: the encoders of robots-client.cpp:559-594 against the server's reading of one
    256-byte buffer (server-tcp-handler.cpp:152-194, game-engine.cpp:256-295). */
module ClientMessages {
  import opened Types
  import opened Wire

  const JOIN: u8 := 0
  const PLACE_BOMB: u8 := 1
  const PLACE_BLOCK: u8 := 2
  const MOVE: u8 := 3

  function ClientBytes(m: ClientMessage): Bytes {
    match m
    case Join(name) => [JOIN] + StringBytes(name)
    case PlaceBomb => [PLACE_BOMB]
    case PlaceBlock => [PLACE_BLOCK]
    case Move(d) => [MOVE] + [d]
  }

  predicate Short(m: ClientMessage) { m.Join? ==> |m.name| < 0x100 }

  /** One turn of the parsing loop. */
  function ParseOne(bs: Bytes): Option<(ClientMessage, Bytes)> {
    match ReadU8(bs)
    case None => None
    case Some((code, rest)) =>
      if code == JOIN then
        match ReadString(rest)
        case None => None
        case Some((name, rest')) => Some((Join(name), rest'))
      else if code == PLACE_BOMB then Some((PlaceBomb, rest))
      else if code == PLACE_BLOCK then Some((PlaceBlock, rest))
      else if code == MOVE then
        match ReadU8(rest)
        case None => None
        case Some((d, rest')) => Some((Move(d), rest'))
      else None
  }

  /** The bytes after a Join's code are its name, with a length byte. */
  lemma NameIsExact(bs: Bytes, name: seq<u8>, rest: Bytes)
    ensures ReadString(bs) == Some((name, rest)) <==> |name| < 0x100 && bs == StringBytes(name) + rest
  {
    if ReadString(bs) == Some((name, rest)) {
      assert bs == [bs[0]] + (bs[1..1 + bs[0]] + bs[1 + bs[0]..]);
    }
    if |name| < 0x100 && bs == StringBytes(name) + rest {
      StringTrip(name);
      assert RoundTrips(StringBytes, ReadString, name);
    }
  }

  lemma JoinIsExact(bs: Bytes, name: seq<u8>, rest: Bytes)
    ensures ParseOne(bs) == Some((Join(name), rest)) <==>
            |name| < 0x100 && bs == [JOIN] + StringBytes(name) + rest
  {
    hide ReadString, StringBytes;
    if bs != [] {
      assert bs == [bs[0]] + bs[1..];
      NameIsExact(bs[1..], name, rest);
    }
    Associates([JOIN], StringBytes(name), rest);
    if bs == [JOIN] + (StringBytes(name) + rest) { assert bs[1..] == StringBytes(name) + rest; }
  }

  /** A message is recognised exactly where its encoding stands, and always uses up some bytes. */
  lemma ParseOneIsExact(bs: Bytes, m: ClientMessage, rest: Bytes)
    ensures ParseOne(bs) == Some((m, rest)) <==> Short(m) && bs == ClientBytes(m) + rest
    ensures ParseOne(bs) == Some((m, rest)) ==> |rest| < |bs|
  {
    hide ReadString, StringBytes;
    match m
    case Join(name) =>
      JoinIsExact(bs, name, rest);
    case Move(d) =>
      if ParseOne(bs) == Some((m, rest)) { assert bs == [MOVE] + ([bs[1]] + bs[2..]); }
      if bs == ClientBytes(m) + rest { assert bs[1..] == [d] + rest; }
    case _ =>
      if ParseOne(bs) == Some((m, rest)) { assert bs == [bs[0]] + bs[1..]; }
      if bs == ClientBytes(m) + rest { assert bs[1..] == rest; }
  }

  lemma ParseOneShrinks(bs: Bytes)
    ensures ParseOne(bs).Some? ==> |ParseOne(bs).value.1| < |bs|
  {
    if ParseOne(bs).Some? { ParseOneIsExact(bs, ParseOne(bs).value.0, ParseOne(bs).value.1); }
  }

  /** The message the do-while loop ends with: the last one, if everything parses. */
  function ParseBuffer(bs: Bytes): Option<ClientMessage>
    decreases |bs|
  {
    ParseOneShrinks(bs);
    match ParseOne(bs)
    case None => None
    case Some((m, rest)) => if rest == [] then Some(m) else ParseBuffer(rest)
  }

  lemma NothingToParse()
    ensures ParseBuffer([]) == None
  {
  }

  predicate AllShort(ms: seq<ClientMessage>) {
    forall i :: 0 <= i < |ms| ==> Short(ms[i])
  }

  lemma ClientBytesNonempty(m: ClientMessage)
    ensures ClientBytes(m) != []
  {
  }

  /** A buffer of whole messages is accepted and yields the last of them. */
  lemma {:induction false} WholeMessagesAccepted(ms: seq<ClientMessage>)
    requires ms != [] && AllShort(ms)
    ensures ParseBuffer(Concat(ClientBytes, ms)) == Some(ms[|ms| - 1])
  {
    var rest := Concat(ClientBytes, ms[1..]);
    ParseOneIsExact(Concat(ClientBytes, ms), ms[0], rest);
    if |ms| > 1 {
      ClientBytesNonempty(ms[1]);
      assert rest == ClientBytes(ms[1..][0]) + Concat(ClientBytes, ms[1..][1..]);
      WholeMessagesAccepted(ms[1..]);
    }
  }

  /** And nothing else is: an accepted buffer is a concatenation of whole messages. */
  lemma {:induction false} AcceptedIsWhole(bs: Bytes) returns (ms: seq<ClientMessage>)
    requires ParseBuffer(bs).Some?
    ensures ms != [] && AllShort(ms) && bs == Concat(ClientBytes, ms) && ParseBuffer(bs) == Some(ms[|ms| - 1])
    decreases |bs|
  {
    var (m, rest) := ParseOne(bs).value;
    ParseOneIsExact(bs, m, rest);
    if rest == [] {
      ms := [m];
      assert ms[1..] == [] && ClientBytes(m) + [] == ClientBytes(m);
    } else {
      var more := AcceptedIsWhole(rest);
      ms := [m] + more;
      assert ms[1..] == more;
    }
  }

  /** The server accepts a buffer, and applies `m`, exactly when the buffer is a nonempty sequence of
      whole messages ending in `m`. */
  lemma BufferMeaning(bs: Bytes, m: ClientMessage)
    ensures ParseBuffer(bs) == Some(m) <==>
            exists ms :: ms != [] && AllShort(ms) && bs == Concat(ClientBytes, ms) && ms[|ms| - 1] == m
  {
    if ParseBuffer(bs) == Some(m) {
      var ms := AcceptedIsWhole(bs);
    }
    if ms :| ms != [] && AllShort(ms) && bs == Concat(ClientBytes, ms) && ms[|ms| - 1] == m {
      WholeMessagesAccepted(ms);
    }
  }
}
