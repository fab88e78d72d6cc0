/** Fixed headers and length-delimited strings: the shared part of every MQTT packet. */
module Packet {
  import opened Bytes
  import opened RemainingLength

  const BUFFER_TOO_SHORT := -2

  const CONNECT := 1
  const PUBLISH := 3
  const SUBSCRIBE := 8
  const SUBACK := 9
  const UNSUBSCRIBE := 10

  type QoS = q: int | 0 <= q < 4

  /** The header byte: retain, QoS, dup and packet type, from the lowest bit up. */
  function HeaderByte(kind: nat, dup: bool, qos: QoS, retain: bool): byte
    requires kind < 16
  {
    (if retain then 1 else 0) + 2 * qos + (if dup then 8 else 0) + 16 * kind
  }

  lemma HeaderRoundTrip(kind: nat, dup: bool, qos: QoS, retain: bool)
    requires kind < 16
    ensures var b := HeaderByte(kind, dup, qos, retain);
            Kind(b) == kind && Dup(b) == dup && Qos(b) == qos && Retain(b) == retain
  {
    var b: nat := HeaderByte(kind, dup, qos, retain);
    var d, r := if dup then 1 else 0, if retain then 1 else 0;
    assert b == 8 * (2 * kind + d) + (2 * qos + r);
    assert b == 2 * (4 * (2 * kind + d) + qos) + r;
  }

  function Kind(b: byte): nat { b / 16 }

  predicate Dup(b: byte) { b / 8 % 2 == 1 }

  function Qos(b: byte): QoS { b / 2 % 4 }

  predicate Retain(b: byte) { b % 2 == 1 }

  /** What a serializer writes: the header byte, the shortest field of the length it has computed, the body. */
  function Emitted(header: byte, len: nat, body: seq<byte>): (s: seq<byte>)
    ensures |s| == 1 + |LengthField(len)| + |body|
  {
    [header] + LengthField(len) + body
  }

  /** A complete packet: the computed length is the body's. */
  function Frame(header: byte, body: seq<byte>): (f: seq<byte>)
    ensures |f| == 1 + |LengthField(|body|)| + |body|
  {
    Emitted(header, |body|, body)
  }

  /** A frame that passes the serializers' size check fits the buffer length they were given. */
  lemma FrameFits(header: byte, body: seq<byte>, buflen: nat)
    requires |body| <= MAX_REMAINING_LENGTH && PacketLen(|body|) <= buflen
    ensures |Frame(header, body)| <= buflen
  {
    PacketLenIsExactOrOneMore(|body|);
  }

  /** A frame in a buffer is found again: its kind, its length and where its body starts. */
  lemma FrameFound(s: seq<byte>, header: byte, body: seq<byte>)
    requires Holds(s, 0, Frame(header, body)) && |body| <= MAX_REMAINING_LENGTH
    ensures s[0] == header
    ensures var n := |LengthField(|body|)|;
            ScanLength(s[1..], 4) == Scan(n, n, |body|, true) && Holds(s, 1 + n, body)
  {
    var f := LengthField(|body|);
    HoldsSplit(s, 0, [header] + f, body);
    HoldsSplit(s, 0, [header], f);
    assert s[1..] == f + s[1 + |f|..];
    LengthRoundTrip(|body|, s[1 + |f|..]);
  }

  /** MQTTString: a C string (its bytes before the terminator), a length-delimited one, or both. */
  datatype MqttString = MqttString(cstring: Option<seq<byte>>, data: Option<seq<byte>>)

  predicate Present(m: MqttString) { m.cstring.Some? || m.data.Some? }

  function LenData(m: MqttString): nat { if m.data.Some? then |m.data.value| else 0 }

  /** MQTTstrlen: the C string wins. */
  function Strlen(m: MqttString): nat {
    if m.cstring.Some? then |m.cstring.value| else LenData(m)
  }

  /** What writeMQTTString writes: here the length-delimited form wins, if it is not empty. */
  function Content(m: MqttString): seq<byte> {
    if LenData(m) > 0 then m.data.value
    else if m.cstring.Some? then m.cstring.value
    else []
  }

  /** The two forms are not both in use with different lengths. */
  predicate Coherent(m: MqttString) {
    m.cstring.Some? && LenData(m) > 0 ==> |m.cstring.value| == |m.data.value|
  }

  ghost predicate AllCoherent(strings: seq<MqttString>) {
    forall m | m in strings :: Coherent(m)
  }

  /** What is written of each string. */
  ghost function Contents(strings: seq<MqttString>): seq<seq<byte>> {
    seq(|strings|, i requires 0 <= i < |strings| => Content(strings[i]))
  }

  /** The computed length is the written length exactly for coherent strings. */
  lemma StrlenIsWritten(m: MqttString)
    ensures Strlen(m) == |Content(m)| <==> Coherent(m)
    ensures m.data.Some? && m.data.value != [] ==> Content(m) == m.data.value
    ensures m.cstring.Some? && (m.data.None? || m.data.value == []) ==> Content(m) == m.cstring.value
  {
  }

  function StringBytes(m: MqttString): (bs: seq<byte>)
    ensures |bs| == 2 + |Content(m)|
  {
    Int16(|Content(m)|) + Content(m)
  }

  /** writeMQTTString. */
  method WriteString(w: Writer, m: MqttString)
    requires w.Valid() && w.ptr + |StringBytes(m)| <= w.buf.Length
    modifies w, w.buf
    ensures w.Valid() && w.Written() == old(w.Written()) + StringBytes(m)
  {
    if m.data.Some? && |m.data.value| > 0 {
      w.Int(|m.data.value|);
      w.Copy(m.data.value);
    } else if m.cstring.Some? {
      w.Int(|m.cstring.value|);
      w.Copy(m.cstring.value);
    } else {
      w.Int(0);
    }
  }

  /** The length-delimited string at `at`, if it fits before `end`. */
  function StringAt(s: seq<byte>, at: nat, end: nat): (r: Option<seq<byte>>)
    requires end <= |s|
    ensures r.Some? ==> at + 2 + |r.value| <= end
  {
    if at + 2 <= end && at + 2 + IntAt(s, at) <= end then Some(s[at + 2..at + 2 + IntAt(s, at)]) else None
  }

  lemma StringFound(s: seq<byte>, at: nat, m: MqttString, end: nat)
    requires |Content(m)| <= 65535
    requires Holds(s, at, StringBytes(m)) && at + |StringBytes(m)| <= end <= |s|
    ensures StringAt(s, at, end) == Some(Content(m))
  {
    HoldsSplit(s, at, Int16(|Content(m)|), Content(m));
    IntFound(s, at, |Content(m)|);
  }

  /** readMQTTLenString. */
  method ReadString(buf: array<byte>, at: nat, end: nat) returns (r: Option<seq<byte>>, next: nat)
    requires end <= buf.Length
    ensures r == StringAt(buf[..], at, end)
    ensures r.Some? ==> next == at + 2 + |r.value|
  {
    r, next := None, at;
    if at + 2 <= end {
      var len := ReadInt(buf, at);
      next := at + 2;
      if next + len <= end {
        r := Some(buf[next..next + len]);
        next := next + len;
      }
    }
  }

  /** Every serializer starts like this: the header byte, then the remaining length. */
  method BeginPacket(buf: array<byte>, header: byte, remLen: nat) returns (w: Writer)
    requires 1 + |LengthField(remLen)| <= buf.Length
    modifies buf
    ensures fresh(w) && w.Valid() && w.buf == buf && w.image == old(buf[..])
    ensures w.Written() == [header] + LengthField(remLen)
  {
    w := new Writer(buf, 0);
    w.Char(header);
    var _ := Encode(w, remLen);
  }
}
