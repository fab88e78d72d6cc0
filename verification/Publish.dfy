/** MQTTSerialize_publish and MQTTDeserialize_publish. */
module Publish {
  import opened Bytes
  import opened RemainingLength
  import opened Packet

  datatype Publish = Publish(dup: bool, qos: QoS, retained: bool, id: nat, topic: MqttString, payload: seq<byte>)

  function Header(p: Publish): byte { HeaderByte(PUBLISH, p.dup, p.qos, p.retained) }

  function Body(p: Publish): (body: seq<byte>)
    ensures |body| == 2 + |Content(p.topic)| + (if p.qos > 0 then 2 else 0) + |p.payload|
  {
    StringBytes(p.topic) + (if p.qos > 0 then Int16(p.id) else []) + p.payload
  }

  /** MQTTSerialize_publishLength. */
  function PublishLength(p: Publish): nat {
    2 + Strlen(p.topic) + |p.payload| + if p.qos > 0 then 2 else 0
  }

  /** The computed remaining length is the size of the body exactly when the topic is coherent. */
  lemma LengthIsBody(p: Publish)
    ensures PublishLength(p) == |Body(p)| <==> Coherent(p.topic)
  {
    StrlenIsWritten(p.topic);
  }

  /** The buffer must have room for what is written; the source's own check sees to that for a coherent topic. */
  method Serialize(buf: array<byte>, buflen: nat, p: Publish) returns (rc: int)
    requires buflen <= buf.Length
    requires PacketLen(PublishLength(p)) <= buflen ==> |Emitted(Header(p), PublishLength(p), Body(p))| <= buf.Length
    modifies buf
    ensures var out := Emitted(Header(p), PublishLength(p), Body(p));
            && rc == (if PacketLen(PublishLength(p)) > buflen then -2 else |out|)
            && (rc > 0 ==> buf[..rc] == out && buf[rc..] == old(buf[rc..]))
            && (rc <= 0 ==> buf[..] == old(buf[..]))
    ensures rc > 0 ==> buf[0] == 48 + (if p.dup then 8 else 0) + 2 * p.qos + if p.retained then 1 else 0
    ensures Coherent(p.topic) && |Body(p)| <= MAX_REMAINING_LENGTH && rc > 0 ==>
              rc <= buflen && buf[..rc] == Frame(Header(p), Body(p))
  {
    hide LengthField;
    var remLen := PublishLength(p);
    LengthIsBody(p);
    if PacketLen(remLen) > buflen {
      return BUFFER_TOO_SHORT;
    }
    if Coherent(p.topic) && |Body(p)| <= MAX_REMAINING_LENGTH {
      FrameFits(Header(p), Body(p), buflen);
    }
    var w := BeginPacket(buf, Header(p), remLen);
    WriteBody(w, p);
    rc := w.ptr;
  }

  method WriteBody(w: Writer, p: Publish)
    requires w.Valid() && w.ptr + |Body(p)| <= w.buf.Length
    modifies w, w.buf
    ensures w.Valid() && w.Written() == old(w.Written()) + Body(p)
  {
    WriteString(w, p.topic);
    if p.qos > 0 {
      w.Int(p.id);
    }
    w.Copy(p.payload);
  }

  /** What the reader reports. `payload` is an offset into the buffer; a packet id is stored for QoS > 0 only. */
  datatype Parsed =
    | OtherKind
    | BadTopic(lengthBytes: nat)
    | Parsed(dup: bool, qos: QoS, retained: bool, id: Option<nat>, topic: seq<byte>, payload: nat, payloadlen: int)

  /** The returned code. A topic that does not fit leaves the number of length bytes in it. */
  function ReturnCode(r: Parsed): int {
    match r
    case OtherKind => 0
    case BadTopic(n) => n
    case Parsed(_, _, _, _, _, _, _) => 1
  }

  /** Every byte the reader touches lies in the buffer. */
  ghost predicate Readable(s: seq<byte>) {
    && 1 <= |s|
    && (Kind(s[0]) == PUBLISH ==>
      var scan := ScanLength(s[1..], 4);
      FieldInside(s, 1) && FieldsReadable(s, 1 + scan.attempts, scan.value))
  }

  /** The body starts at `start` and is `len` bytes long; the packet id is read without a check. */
  ghost predicate FieldsReadable(s: seq<byte>, start: nat, len: nat)
    requires 1 <= |s|
  {
    && start + len <= |s|
    && (Qos(s[0]) > 0 && StringAt(s, start, start + len).Some? ==> start + 4 + IntAt(s, start) <= |s|)
  }

  ghost function Parse(s: seq<byte>): Parsed
    requires Readable(s)
  {
    if Kind(s[0]) != PUBLISH then OtherKind
    else
      var scan := ScanLength(s[1..], 4);
      ParseFields(s, 1 + scan.attempts, scan.value, scan.attempts)
  }

  ghost function ParseFields(s: seq<byte>, start: nat, len: nat, lengthBytes: nat): Parsed
    requires 1 <= |s| && FieldsReadable(s, start, len)
  {
    match StringAt(s, start, start + len)
    case None => BadTopic(lengthBytes)
    case Some(topic) =>
      var afterTopic := start + 2 + |topic|;
      var payload := if Qos(s[0]) > 0 then afterTopic + 2 else afterTopic;
      Parsed(Dup(s[0]), Qos(s[0]), Retain(s[0]),
             if Qos(s[0]) > 0 then Some(IntAt(s, afterTopic)) else None,
             topic, payload, start + len - payload)
  }

  method Deserialize(buf: array<byte>) returns (rc: int, r: Parsed)
    requires Readable(buf[..])
    ensures r == Parse(buf[..]) && rc == ReturnCode(r)
  {
    if Kind(buf[0]) != PUBLISH {
      return 0, OtherKind;
    }
    var n, mylen := DecodeBuf(buf, 1);
    rc, r := ReadFields(buf, 1 + n, mylen, n);
  }

  method ReadFields(buf: array<byte>, start: nat, len: nat, lengthBytes: nat) returns (rc: int, r: Parsed)
    requires 1 <= buf.Length && FieldsReadable(buf[..], start, len)
    ensures r == ParseFields(buf[..], start, len, lengthBytes) && rc == ReturnCode(r)
  {
    var header := buf[0];
    var enddata: int := start + len;
    var topic, curdata := ReadString(buf, start, enddata);
    if topic.None? {
      return lengthBytes, BadTopic(lengthBytes);
    }
    var id: Option<nat> := None;
    if Qos(header) > 0 {
      var n := ReadInt(buf, curdata);
      id := Some(n);
      curdata := curdata + 2;
    }
    return 1, Parsed(Dup(header), Qos(header), Retain(header), id, topic.value, curdata, enddata - curdata);
  }

  /** Section 3.3 of MQTT 3.1.1: reading a serialized PUBLISH restores every field. */
  lemma RoundTrip(p: Publish, s: seq<byte>)
    requires |Content(p.topic)| <= 65535 && p.id <= 65535 && |Body(p)| <= MAX_REMAINING_LENGTH
    requires Holds(s, 0, Frame(Header(p), Body(p)))
    ensures Readable(s)
    ensures var at := |Frame(Header(p), Body(p))| - |p.payload|;
            && Parse(s) == Parsed(p.dup, p.qos, p.retained, if p.qos > 0 then Some(p.id) else None,
                                  Content(p.topic), at, |p.payload|)
            && s[at..at + |p.payload|] == p.payload
  {
    hide Body, Frame, Holds, ScanLength, IntAt, StringAt, HeaderByte, LengthField, Content, Parse;
    FieldsFound(p, s);
    var n := |LengthField(|Body(p)|)|;
    ParsedFrom(s, n, |Body(p)|, p.dup, p.qos, p.retained, p.id, Content(p.topic));
  }

  /** What Parse returns, from the pieces it finds. */
  lemma ParsedFrom(s: seq<byte>, n: nat, len: nat, dup: bool, qos: QoS, retained: bool, id: nat, topic: seq<byte>)
    requires 1 + n + len <= |s| && s[0] == HeaderByte(PUBLISH, dup, qos, retained)
    requires ScanLength(s[1..], 4) == Scan(n, n, len, true)
    requires StringAt(s, 1 + n, 1 + n + len) == Some(topic)
    requires qos > 0 ==> 5 + n + |topic| <= 1 + n + len && IntAt(s, 3 + n + |topic|) == id
    ensures Readable(s)
    ensures var at := 3 + n + |topic| + if qos > 0 then 2 else 0;
            Parse(s) == Parsed(dup, qos, retained, if qos > 0 then Some(id) else None, topic, at, 1 + n + len - at)
  {
    HeaderRoundTrip(PUBLISH, dup, qos, retained);
  }

  lemma FieldsFound(p: Publish, s: seq<byte>)
    requires |Content(p.topic)| <= 65535 && p.id <= 65535 && |Body(p)| <= MAX_REMAINING_LENGTH
    requires Holds(s, 0, Frame(Header(p), Body(p)))
    ensures var n, len := |LengthField(|Body(p)|)|, |Body(p)|;
            && 1 + n + len <= |s| && s[0] == Header(p)
            && ScanLength(s[1..], 4) == Scan(n, n, len, true)
            && StringAt(s, 1 + n, 1 + n + len) == Some(Content(p.topic))
            && (p.qos > 0 ==> IntAt(s, 3 + n + |Content(p.topic)|) == p.id)
            && s[1 + n + len - |p.payload|..1 + n + len] == p.payload
  {
    hide Body, Frame, Holds, ScanLength, IntAt, StringAt, HeaderByte, LengthField, Content;
    HoldsFits(s, 0, Frame(Header(p), Body(p)));
    FrameFound(s, Header(p), Body(p));
    BodyFound(p, s, 1 + |LengthField(|Body(p)|)|);
  }

  lemma BodyFound(p: Publish, s: seq<byte>, start: nat)
    requires |Content(p.topic)| <= 65535 && p.id <= 65535
    requires Holds(s, start, Body(p))
    ensures var end := start + |Body(p)|;
            && StringAt(s, start, end) == Some(Content(p.topic))
            && (p.qos > 0 ==> IntAt(s, start + |StringBytes(p.topic)|) == p.id)
            && s[end - |p.payload|..end] == p.payload
  {
    var id := if p.qos > 0 then Int16(p.id) else [];
    HoldsSplit(s, start, StringBytes(p.topic) + id, p.payload);
    HoldsSplit(s, start, StringBytes(p.topic), id);
    StringFound(s, start, p.topic, start + |Body(p)|);
    if p.qos > 0 {
      IntFound(s, start + |StringBytes(p.topic)|, p.id);
    }
  }

  /** A return of 1 means the topic was there, or merely that the length field had one byte. */
  lemma OneIsNotProof(s: seq<byte>)
    requires Readable(s)
    ensures ReturnCode(Parse(s)) == 1 <==>
            Kind(s[0]) == PUBLISH &&
            var scan := ScanLength(s[1..], 4);
            var start := 1 + scan.attempts;
            StringAt(s, start, start + scan.value).Some? || s[1] < 128
  {
  }

  /** A packet with an empty body is malformed, yet the reader returns 1. */
  lemma EmptyBodyReturnsOne()
    ensures Readable([48, 0]) && Parse([48, 0]) == BadTopic(1) && ReturnCode(Parse([48, 0])) == 1
  {
    assert [48, 0][1..] == [0];
  }
}
