/** The server's connection handler (server-tcp-handler.cpp): the slot table, and the cursor over the
    256-byte read buffer. A blocking read is an input: an error, or the bytes it delivers. */
module TcpHandling {
  import opened Types
  import opened Wire
  import opened GameSpec
  import opened ClientMessages

  const BUF_SIZE := 256

  datatype Incoming = Failed | Data(bytes: Bytes)

  datatype Status = ErrorConn | ErrorMsg | EndConn | PotentiallySuccess | Success

  /** The lowest free client slot, or -1. Slot 0 is the listening socket. */
  function FirstFree(open: seq<bool>): int {
    FreeFrom(open, FIRST_SLOT)
  }

  function FreeFrom(open: seq<bool>, i: nat): int
    decreases |open| - i
  {
    if i >= |open| then -1 else if !open[i] then i else FreeFrom(open, i + 1)
  }

  lemma {:induction false} FreeFromIsLowest(open: seq<bool>, i: nat)
    ensures FreeFrom(open, i) == -1 <==> forall j :: i <= j < |open| ==> open[j]
    ensures FreeFrom(open, i) != -1 ==>
              i <= FreeFrom(open, i) < |open| && !open[FreeFrom(open, i)] &&
              forall j :: i <= j < FreeFrom(open, i) ==> open[j]
    decreases |open| - i
  {
    if i < |open| && open[i] { FreeFromIsLowest(open, i + 1); }
  }

  /** The client just accepted is the one greeted exactly when the first slot was free. */
  lemma NewcomerIsGreeted(open: seq<bool>)
    requires |open| == CONN_MAX && FirstFree(open) >= 0
    ensures FirstFree(open) == GREETED_SLOT <==> !open[FIRST_SLOT]
  {
    FreeFromIsLowest(open, FIRST_SLOT);
  }

  /** The slot table of a new server: only the listening socket is open. */
  const CLOSED: seq<bool> := seq(CONN_MAX, i => i == 0)

  /** A string is read after its length byte. */
  lemma StringParts(bs: Bytes)
    ensures match ReadU8(bs)
            case None => ReadString(bs).None?
            case Some((n, more)) => ReadString(bs) == if |more| < n then None else Some((more[..n], more[n..]))
  {
    if bs != [] && bs[0] < |bs| {
      assert bs[1..][..bs[0]] == bs[1..1 + bs[0]] && bs[1..][bs[0]..] == bs[1 + bs[0]..];
    }
  }

  class TcpHandler {
    const buf: array<u8>
    var start: nat
    var length: int
    var open: seq<bool>

    ghost predicate Valid()
      reads this, buf
    {
      buf.Length == BUF_SIZE && length >= -1 && start + length <= BUF_SIZE && |open| == CONN_MAX
    }

    /** The bytes of the current buffer not yet read. */
    ghost function Remaining(): Bytes
      reads this, buf
      requires Valid()
    {
      if length <= 0 then [] else buf[start..start + length]
    }

    constructor ()
      ensures Valid() && fresh(buf) && Remaining() == []
      ensures open == CLOSED
    {
      buf := new u8[BUF_SIZE];
      start, length := 0, 0;
      open := CLOSED;
    }

    /** Puts a new connection in the lowest free slot; with none free it is closed again. */
    method AcceptClient() returns (slot: int)
      requires Valid()
      modifies this`open
      ensures Valid() && slot == FirstFree(old(open)) && -1 <= slot < CONN_MAX
      ensures slot >= 0 ==> slot >= FIRST_SLOT && open[GREETED_SLOT]
      ensures open == if slot >= 0 then old(open)[slot := true] else old(open)
    {
      FreeFromIsLowest(open, FIRST_SLOT);
      slot := -1;
      var i := FIRST_SLOT;
      while i < CONN_MAX && slot < 0
        invariant FIRST_SLOT <= i <= CONN_MAX && |open| == CONN_MAX && Valid()
        invariant slot < 0 ==> slot == -1 && open == old(open) && FreeFrom(open, i) == FirstFree(old(open))
        invariant slot >= 0 ==> slot == FirstFree(old(open)) && open == old(open)[slot := true]
        decreases CONN_MAX - i, if slot < 0 then 1 else 0
      {
        if !open[i] {
          open := open[i := true];
          slot := i;
        } else {
          i := i + 1;
        }
      }
    }

    /** A client whose message was not handled is disconnected. */
    method ReportMsgStatus(status: Status, slot: nat)
      requires Valid() && slot < CONN_MAX
      modifies this`open
      ensures Valid() && open == if status == Success then old(open) else old(open)[slot := false]
    {
      if status != Success { open := open[slot := false]; }
    }

    /** One read of at most the buffer's size. */
    method ReadFrom(incoming: Incoming) returns (status: Status)
      requires Valid() && (incoming.Data? ==> |incoming.bytes| <= BUF_SIZE)
      modifies this`start, this`length, buf
      ensures Valid()
      ensures incoming.Failed? ==> status == ErrorConn
      ensures incoming.Data? ==> status == if incoming.bytes == [] then EndConn else PotentiallySuccess
      ensures incoming.Data? ==> Remaining() == incoming.bytes && length == |incoming.bytes|
    {
      start := 0;
      match incoming
      case Failed =>
        length := -1;
        status := ErrorConn;
      case Data(bytes) =>
        length := |bytes|;
        forall i | 0 <= i < |bytes| { buf[i] := bytes[i]; }
        assert buf[..|bytes|] == bytes;
        status := if length == 0 then EndConn else PotentiallySuccess;
    }

    predicate IsBufEmpty()
      reads this
    {
      length == 0
    }

    method CurrentBufUpdate(count: nat)
      requires Valid() && count <= length
      modifies this`start, this`length
      ensures Valid() && length == old(length) - count && Remaining() == old(Remaining())[count..]
    {
      start := start + count;
      length := length - count;
    }

    /** `None` stands for the source's MsgException. */
    method ReadUint8() returns (r: Option<u8>)
      requires Valid()
      modifies this`start, this`length
      ensures Valid() && Agrees(r, ReadU8(old(Remaining())), Remaining())
      ensures r.Some? ==> length == |Remaining()|
    {
      if length < 1 {
        return None;
      }
      var result := buf[start];
      CurrentBufUpdate(1);
      return Some(result);
    }

    method ReadStr() returns (r: Option<seq<u8>>)
      requires Valid()
      modifies this`start, this`length
      ensures Valid() && Agrees(r, ReadString(old(Remaining())), Remaining())
      ensures r.Some? ==> length == |Remaining()|
    {
      hide ReadU8, ReadString;
      ghost var bs := Remaining();
      StringParts(bs);
      var n := ReadUint8();
      if n.None? {
        return None;
      }
      ghost var more := Remaining();
      if n.value > length {
        return None;
      }
      var str := buf[start..start + n.value];
      assert more == buf[start..start + length] && str == more[..n.value];
      CurrentBufUpdate(n.value);
      return Some(str);
    }

    /** One turn of the parsing loop of handle_msg. */
    method ReadMessage() returns (r: Option<ClientMessage>)
      requires Valid()
      modifies this`start, this`length
      ensures Valid() && Agrees(r, ParseOne(old(Remaining())), Remaining())
      ensures r.Some? ==> length == |Remaining()|
    {
      var code := ReadUint8();
      if code.None? {
        return None;
      }
      if code.value == JOIN {
        var name := ReadStr();
        return if name.None? then None else Some(Join(name.value));
      } else if code.value == PLACE_BOMB {
        return Some(PlaceBomb);
      } else if code.value == PLACE_BLOCK {
        return Some(PlaceBlock);
      } else if code.value == MOVE {
        var d := ReadUint8();
        return if d.None? then None else Some(Move(d.value));
      }
      return None;
    }
  }
}
