/** MQTTPacket_read, and the resumable MQTTPacket_readnb that must agree with it. */
module PacketReader {
  import opened Bytes
  import opened RemainingLength
  import opened Packet

  /** One packet on the wire: a header byte, a length field of one to four bytes, and the announced body. */
  ghost predicate PacketAt(stream: seq<byte>, start: nat) {
    && start < |stream|
    && var scan := ScanLength(stream[start + 1..], 4);
       scan.ended && start + 1 + scan.used + scan.value <= |stream|
  }

  ghost function LengthBytes(stream: seq<byte>, start: nat): nat
    requires start < |stream|
  {
    ScanLength(stream[start + 1..], 4).used
  }

  ghost function BodyLength(stream: seq<byte>, start: nat): nat
    requires start < |stream|
  {
    ScanLength(stream[start + 1..], 4).value
  }

  /** The result of one blocking read at `start`: -1, or the packet type with the stored frame and the bytes taken. */
  datatype Blocking = Failed | Packet(kind: nat, frame: seq<byte>, end: nat)

  /** MQTTPacket_read ignores how the length scan went: an unfinished field counts with what it yielded. */
  ghost function BlockingRead(stream: seq<byte>, start: nat, buflen: nat): Blocking
    requires start <= |stream|
  {
    if start == |stream| then Failed
    else
      var len, bodyAt := BodyLength(stream, start), start + 1 + LengthBytes(stream, start);
      if 1 + |LengthField(len)| + len > buflen || bodyAt + len > |stream| then Failed
      else Packet(Kind(stream[start]), Frame(stream[start], stream[bodyAt..bodyAt + len]), bodyAt + len)
  }

  /** MQTTPacket_read. The length is written back before the size is checked, hence the five bytes. */
  method Read(buf: array<byte>, buflen: nat, source: Source) returns (rc: int)
    requires 5 <= buf.Length && buflen <= buf.Length
    requires source.Valid()
    modifies buf, source
    ensures source.Valid()
    ensures match BlockingRead(source.stream, old(source.pos), buflen)
      case Failed => rc == -1
      case Packet(kind, frame, end) =>
        rc == kind && |frame| <= buflen && buf[..|frame|] == frame && source.pos == end
  {
    hide ScanLength, LengthField, Kind, BlockingRead, Frame, Holds, Accumulated, Pow128;
    ghost var start := source.pos;
    NothingToRead(source.stream, buflen);
    var header := source.Get(1);
    if |header| != 1 {
      return -1;
    }
    var w := new Writer(buf, 0);
    w.Char(header[0]);
    var attempts, remLen := Decode(source);
    SmallValue(source.stream[start + 1..]);
    ghost var bodyAt := source.pos;
    var stored := StoreBody(w, source, header[0], remLen, buflen);
    ReadDone(source.stream, start, buflen, bodyAt, stored, buf[..], source.pos);
    rc := if stored then Kind(buf[0]) else -1;
  }

  /** The buffer after the whole packet has been stored, or given up. */
  lemma ReadDone(stream: seq<byte>, start: nat, buflen: nat, bodyAt: nat, stored: bool, buf: seq<byte>, pos: nat)
    requires start < |stream| && bodyAt == start + 1 + LengthBytes(stream, start)
    requires var len := BodyLength(stream, start);
             && (stored <==> 1 + |LengthField(len)| + len <= buflen && bodyAt + len <= |stream|)
             && (stored ==>
                   && pos == bodyAt + len && buf != [] && buf[0] == stream[start]
                   && var frame := Frame(stream[start], stream[bodyAt..pos]);
                      |frame| <= buflen && |frame| <= |buf| && buf[..|frame|] == frame)
    ensures match BlockingRead(stream, start, buflen)
      case Failed => !stored
      case Packet(kind, frame, end) =>
        stored && kind == Kind(buf[0]) && |frame| <= buflen && |frame| <= |buf| && buf[..|frame|] == frame && pos == end
  {
    hide ScanLength, LengthField, Kind, Frame, LengthBytes, BodyLength;
  }

  /** The rest of a read: the length field again, and the body if it fits and is all there. */
  method StoreBody(w: Writer, source: Source, header: byte, remLen: nat, buflen: nat) returns (stored: bool)
    requires w.Valid() && w.Written() == [header] && 1 + |LengthField(remLen)| <= w.buf.Length && buflen <= w.buf.Length
    requires source.Valid()
    modifies w, w.buf, source
    ensures source.Valid()
    ensures stored <==> 1 + |LengthField(remLen)| + remLen <= buflen && old(source.pos) + remLen <= |source.stream|
    ensures stored ==>
              && source.pos == old(source.pos) + remLen && w.buf[0] == header
              && var frame := Frame(header, source.stream[old(source.pos)..source.pos]);
                 |frame| <= buflen && w.buf[..|frame|] == frame
  {
    hide LengthField;
    var n := Encode(w, remLen);
    if remLen + 1 + n > buflen {
      return false;
    }
    var body := source.Get(remLen);
    w.Copy(body);
    return |body| == remLen;
  }

  lemma NothingToRead(stream: seq<byte>, buflen: nat)
    ensures BlockingRead(stream, |stream|, buflen) == Failed
  {
  }

  lemma SmallValue(s: seq<byte>)
    ensures ScanLength(s, 4).value <= MAX_REMAINING_LENGTH
    ensures |LengthField(ScanLength(s, 4).value)| <= 4
  {
    ScanInRange(s, 4);
    FourDigits();
    LengthFieldSize(ScanLength(s, 4).value);
  }

  lemma FourDigits()
    ensures Pow128(4) == 268435456
  {
    assert Pow128(1) == 128 && Pow128(2) == 16384 && Pow128(3) == 2097152;
  }
}
