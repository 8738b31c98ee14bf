/** The client's primitive reads over the buffers as they arrive (robots-client.cpp:52-150). A value
    may be split between two buffers. read_uint32 does not mind; read_uint16 and read_string do, and
    the contracts below say exactly when they still return what is on the wire. */
module ChunkedReads {
  import opened Types
  import opened Wire

  /** The bytes of the pieces one after another. */
  function Flat(pieces: seq<Bytes>): Bytes {
    if pieces == [] then [] else pieces[0] + Flat(pieces[1..])
  }

  predicate NoneEmpty(pieces: seq<Bytes>) {
    forall i :: 0 <= i < |pieces| ==> pieces[i] != []
  }

  // ---------- strings ----------

  /** The loop of read_string: each turn takes the whole buffer, or `n` bytes of a buffer that has as
      many, however many are still missing. */
  function TakeString(n: nat, got: Bytes, pieces: seq<Bytes>): Option<(Bytes, seq<Bytes>)>
    requires NoneEmpty(pieces)
    decreases if |got| < n then n - |got| else 0
  {
    if |got| >= n then Some((got, pieces))
    else if pieces == [] then None
    else if |pieces[0]| > n then Some((got + pieces[0][..n], [pieces[0][n..]] + pieces[1..]))
    else TakeString(n, got + pieces[0], pieces[1..])
  }

  /** The string ends inside its first buffer, or exactly where some buffer ends. */
  ghost predicate Aligned(pieces: seq<Bytes>, n: nat) {
    (pieces != [] && n <= |pieces[0]|) || exists k :: 0 <= k <= |pieces| && |Flat(pieces[..k])| == n
  }

  /** Taken right: exactly the next `n` bytes, with the others left. */
  predicate TakenRight(n: nat, stream: Bytes, r: Option<(Bytes, seq<Bytes>)>)
    requires n <= |stream|
  {
    r.Some? && r.value.0 == stream[..n] && Flat(r.value.1) == stream[n..]
  }

  /** Later turns: what is missing must end where a buffer ends. */
  lemma {:induction false} TakeRest(n: nat, got: Bytes, pieces: seq<Bytes>)
    requires NoneEmpty(pieces) && 0 < |got| <= n <= |got| + |Flat(pieces)|
    ensures TakenRight(n, got + Flat(pieces), TakeString(n, got, pieces)) <==>
            exists k :: 0 <= k <= |pieces| && |got| + |Flat(pieces[..k])| == n
    decreases |pieces|
  {
    var stream := got + Flat(pieces);
    if |got| == n {
      assert |got| + |Flat(pieces[..0])| == n;
      assert stream[..n] == got && stream[n..] == Flat(pieces);
    } else {
      var head, tail := pieces[0], pieces[1..];
      forall k | 0 <= k <= |pieces| && |got| + |Flat(pieces[..k])| == n
        ensures k >= 1 && |got + head| + |Flat(tail[..k - 1])| == n
      {
        assert k >= 1;
        assert pieces[..k][0] == head && pieces[..k][1..] == tail[..k - 1];
      }
      if |got| + |head| <= n {
        assert got + head + Flat(tail) == stream;
        TakeRest(n, got + head, tail);
        if j :| 0 <= j <= |tail| && |got + head| + |Flat(tail[..j])| == n {
          assert pieces[..j + 1][0] == head && pieces[..j + 1][1..] == tail[..j];
          assert |got| + |Flat(pieces[..j + 1])| == n;
        }
      } else {
        // too much is taken
        var r := TakeString(n, got, pieces);
        if |head| <= n { assert TakeString(n, got + head, tail) == Some((got + head, tail)); }
        assert |r.value.0| > n;
      }
    }
  }

  /** The string is read right exactly when it is aligned; otherwise bytes of the next value go with it. */
  lemma StringReadRight(n: nat, pieces: seq<Bytes>)
    requires NoneEmpty(pieces) && n <= |Flat(pieces)|
    ensures TakenRight(n, Flat(pieces), TakeString(n, [], pieces)) <==> Aligned(pieces, n)
  {
    if n == 0 {
      assert |Flat(pieces[..0])| == 0;
    } else {
      var head, tail := pieces[0], pieces[1..];
      assert [] + head == head;
      if |head| > n {
        assert Flat(pieces)[..n] == head[..n] && Flat(pieces)[n..] == head[n..] + Flat(tail);
        assert ([head[n..]] + tail)[1..] == tail;
        assert [] + head[..n] == head[..n];
      } else {
        TakeRest(n, head, tail);
        assert pieces[..1][0] == head && pieces[..1][1..] == [];
        if j :| 0 <= j <= |tail| && |head| + |Flat(tail[..j])| == n {
          assert pieces[..j + 1][0] == head && pieces[..j + 1][1..] == tail[..j];
          assert |Flat(pieces[..j + 1])| == n;
        }
        if k :| 0 <= k <= |pieces| && |Flat(pieces[..k])| == n {
          assert k >= 1;
          assert pieces[..k][0] == head && pieces[..k][1..] == tail[..k - 1];
          assert |head| + |Flat(tail[..k - 1])| == n;
        }
      }
    }
  }

  /** With too few bytes left the loop runs out of buffers, as it should. */
  lemma {:induction false} TakeShort(n: nat, got: Bytes, pieces: seq<Bytes>)
    requires NoneEmpty(pieces) && |got| + |Flat(pieces)| < n
    ensures TakeString(n, got, pieces).None?
    decreases |pieces|
  {
    if pieces != [] {
      TakeShort(n, got + pieces[0], pieces[1..]);
    }
  }

  // ---------- the buffers ----------

  lemma NothingLeft()
    ensures Flat([]) == []
  {
  }

  /** Taking bytes from the front of the first buffer takes them from the stream. */
  lemma FlatTake(piece: Bytes, chunks: seq<Bytes>, m: nat)
    requires m <= |piece|
    ensures Flat([piece] + chunks) == piece + Flat(chunks)
    ensures Flat(if piece[m..] == [] then chunks else [piece[m..]] + chunks) == Flat([piece] + chunks)[m..]
    ensures piece[..m] == Flat([piece] + chunks)[..m]
  {
    assert ([piece] + chunks)[1..] == chunks;
    if piece[m..] != [] { assert ([piece[m..]] + chunks)[1..] == chunks; }
  }

  /** One turn of read_string's loop. */
  lemma TakeTurn(n: nat, got: Bytes, piece: Bytes, chunks: seq<Bytes>)
    requires |got| < n && piece != [] && NoneEmpty(chunks)
    ensures NoneEmpty([piece] + chunks)
    ensures var m := if |piece| >= n then n else |piece|;
            TakeString(n, got, [piece] + chunks) ==
            TakeString(n, got + piece[..m], if piece[m..] == [] then chunks else [piece[m..]] + chunks)
  {
    assert piece[..|piece|] == piece && ([piece] + chunks)[1..] == chunks;
  }

  lemma TakeEnds(n: nat, got: Bytes, pieces: seq<Bytes>)
    requires NoneEmpty(pieces)
    ensures |got| >= n ==> TakeString(n, got, pieces) == Some((got, pieces))
    ensures |got| < n && pieces == [] ==> TakeString(n, got, pieces).None?
  {
  }

  /** The buffers once their first byte is taken. */
  function AfterFirst(pieces: seq<Bytes>): (r: seq<Bytes>)
    requires NoneEmpty(pieces)
    ensures NoneEmpty(r)
  {
    if pieces == [] then []
    else if |pieces[0]| == 1 then pieces[1..]
    else [pieces[0][1..]] + pieces[1..]
  }

  /** `buf` is what is left of the current buffer; each later read_some delivers one of `chunks`. */
  class Reader {
    var buf: Bytes
    var chunks: seq<Bytes>

    ghost predicate Valid()
      reads this
    {
      NoneEmpty(chunks)
    }

    /** The buffers with something left to read. */
    ghost function Pieces(): (r: seq<Bytes>)
      requires Valid()
      reads this
      ensures NoneEmpty(r)
    {
      if buf == [] then chunks else [buf] + chunks
    }

    ghost function Pending(): Bytes
      requires Valid()
      reads this
    {
      Flat(Pieces())
    }

    constructor (chunks: seq<Bytes>)
      requires NoneEmpty(chunks)
      ensures Valid() && Pieces() == chunks
    {
      buf, this.chunks := [], chunks;
    }

    /** False when the connection has ended; the client then exits. */
    method ReadIfBufEmpty() returns (alive: bool)
      requires Valid()
      modifies this
      ensures Valid() && Pieces() == old(Pieces()) && (alive <==> old(Pieces()) != []) && (alive <==> buf != [])
    {
      alive := true;
      if buf == [] {
        if chunks == [] {
          return false;
        }
        buf, chunks := chunks[0], chunks[1..];
      }
    }

    method ReadUint8() returns (r: Option<u8>)
      requires Valid()
      modifies this
      ensures Valid() && Agrees(r, ReadU8(old(Pending())), Pending()) && Pieces() == AfterFirst(old(Pieces()))
    {
      var alive := ReadIfBufEmpty();
      if !alive {
        return None;
      }
      FlatTake(buf, chunks, 1);
      assert ([buf] + chunks)[1..] == chunks;
      r := Some(buf[0]);
      buf := buf[1..];
    }

    /** The slow path decrements its counter from 0 (robots-client.cpp:98), so it stops after one byte
        and leaves the other unset: `junk` is whatever that is. */
    method ReadUint16(junk: u8) returns (r: Option<u16>)
      requires Valid()
      modifies this
      ensures Valid()
      ensures Agrees(r, ReadU16(old(Pending())), Pending()) <==> (old(Pieces()) != [] ==> |old(Pieces())[0]| >= 2)
    {
      var alive := ReadIfBufEmpty();
      if !alive {
        return None;
      }
      FlatTake(buf, chunks, if |buf| >= 2 then 2 else 1);
      if |buf| >= 2 {
        r := Some(Join8(buf[0], buf[1]));
        buf := buf[2..];
      } else {
        r := Some(Join8(buf[0], junk));
        buf := buf[1..];
      }
    }

    /** The slow path of read_uint32: byte by byte, across as many buffers as it takes. */
    method ReadFour() returns (r: Option<Bytes>)
      requires Valid()
      modifies this
      ensures Valid() && (r.None? <==> |old(Pending())| < 4)
      ensures r.Some? ==> |r.value| == 4 && old(Pending()) == r.value + Pending()
    {
      hide Flat, Pending;
      var bytes: Bytes := [];
      for i := 0 to 4
        invariant Valid() && |bytes| == i && old(Pending()) == bytes + Pending()
      {
        ghost var stream := Pending();
        var byte := ReadUint8();
        if byte.None? {
          return None;
        }
        assert stream == [byte.value] + Pending();
        Associates(bytes, [byte.value], Pending());
        bytes := bytes + [byte.value];
      }
      return Some(bytes);
    }

    /** However the four bytes are split, they are the next four of the stream. */
    method ReadUint32() returns (r: Option<u32>)
      requires Valid()
      modifies this
      ensures Valid() && Agrees(r, ReadU32(old(Pending())), Pending())
    {
      hide Flat;
      ghost var stream := Pending();
      var alive := ReadIfBufEmpty();
      if !alive {
        NothingLeft();
        return None;
      }
      if |buf| >= 4 {
        FlatTake(buf, chunks, 4);
        r := Some(0x1_0000 * Join8(buf[0], buf[1]) + Join8(buf[2], buf[3]));
        buf := buf[4..];
        assert Pending() == stream[4..];
      } else {
        var bytes := ReadFour();
        if bytes.None? {
          return None;
        }
        var b := bytes.value;
        r := Some(0x1_0000 * Join8(b[0], b[1]) + Join8(b[2], b[3]));
        assert Pending() == stream[4..];
      }
    }

    /** The string's bytes, after its length byte. */
    method ReadStringBody(n: u8) returns (r: Option<Bytes>)
      requires Valid()
      modifies this
      ensures Valid() && (r.None? <==> TakeString(n, [], old(Pieces())).None?)
      ensures r.Some? ==> TakeString(n, [], old(Pieces())) == Some((r.value, Pieces()))
    {
      hide TakeString;
      var str: Bytes := [];
      while |str| < n
        invariant Valid() && TakeString(n, [], old(Pieces())) == TakeString(n, str, Pieces())
        decreases n - |str|
      {
        var alive := ReadIfBufEmpty();
        if !alive {
          TakeEnds(n, str, []);
          return None;
        }
        TakeTurn(n, str, buf, chunks);
        var toRead := if |buf| >= n then n else |buf|;
        str := str + buf[..toRead];
        buf := buf[toRead..];
      }
      TakeEnds(n, str, Pieces());
      return Some(str);
    }

    /** A string is read as it was sent exactly when what follows its length byte is aligned with the
        buffers, or the stream is too short for it. */
    method ReadStr() returns (r: Option<seq<u8>>)
      requires Valid()
      modifies this
      ensures Valid()
      ensures Agrees(r, ReadString(old(Pending())), Pending()) <==>
                (ReadString(old(Pending())).Some? ==> Aligned(AfterFirst(old(Pieces())), old(Pending())[0]))
    {
      ghost var stream := Pending();
      var length := ReadUint8();
      ghost var rest := Pieces();
      if length.None? {
        return None;
      }
      r := ReadStringBody(length.value);
      if length.value <= |Flat(rest)| {
        StringReadRight(length.value, rest);
        assert stream[1..1 + stream[0]] == Flat(rest)[..length.value];
        assert stream[1 + stream[0]..] == Flat(rest)[length.value..];
      } else {
        TakeShort(length.value, [], rest);
      }
    }
  }
}
