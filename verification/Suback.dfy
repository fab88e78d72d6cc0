/** MQTTSerialize_suback and MQTTDeserialize_suback. */
module Suback {
  import opened Bytes
  import opened RemainingLength
  import opened Packet

  /** The granted QoS values, one byte each. */
  function CodeBytes(codes: seq<int>): (bs: seq<byte>)
    ensures |bs| == |codes|
  {
    seq(|codes|, i requires 0 <= i < |codes| => codes[i] % 256)
  }

  function Body(id: nat, codes: seq<int>): seq<byte> {
    Int16(id) + CodeBytes(codes)
  }

  const HEADER: byte := 144

  /** The check compares the buffer with 2 + count only, so the room for the whole packet is the caller's duty. */
  method Serialize(buf: array<byte>, buflen: nat, id: nat, codes: seq<int>) returns (rc: int)
    requires buflen >= 2 + |codes| ==> |Frame(HEADER, Body(id, codes))| <= buf.Length
    modifies buf
    ensures var frame := Frame(HEADER, Body(id, codes));
            && rc == (if buflen < 2 + |codes| then -2 else |frame|)
            && (rc > 0 ==> buf[..rc] == frame && buf[rc..] == old(buf[rc..]))
            && (rc <= 0 ==> buf[..] == old(buf[..]))
    ensures rc > 0 ==> buf[0] == 144
  {
    if buflen < 2 + |codes| {
      return BUFFER_TOO_SHORT;
    }
    assert HEADER == HeaderByte(SUBACK, false, 0, false);
    var w := BeginPacket(buf, HeaderByte(SUBACK, false, 0, false), 2 + |codes|);
    WriteBody(w, id, codes);
    rc := w.ptr;
  }

  method WriteBody(w: Writer, id: nat, codes: seq<int>)
    requires w.Valid() && w.ptr + |Body(id, codes)| <= w.buf.Length
    modifies w, w.buf
    ensures w.Valid() && w.Written() == old(w.Written()) + Body(id, codes)
  {
    w.Int(id);
    ghost var base := w.Written();
    for i := 0 to |codes|
      invariant w.Valid() && w.Written() == base + CodeBytes(codes)[..i]
    {
      w.Char(codes[i]);
    }
  }

  /** Every byte the reader touches lies in the buffer. */
  ghost predicate Readable(s: seq<byte>) {
    && 1 <= |s|
    && (Kind(s[0]) == SUBACK ==>
      var scan := ScanLength(s[1..], 4);
      FieldInside(s, 1) && 1 + scan.attempts + scan.value <= |s|)
  }

  ghost function SignedChars(bs: seq<byte>): (r: seq<int>)
    ensures |r| == |bs|
  {
    seq(|bs|, i requires 0 <= i < |bs| => SignedChar(bs[i]))
  }

  /** The reader stops with -1 only after maxcount + 1 codes. */
  method Deserialize(buf: array<byte>, maxcount: nat) returns (rc: int, id: nat, codes: seq<int>)
    requires Readable(buf[..])
    ensures Kind(buf[0]) != SUBACK ==> rc == 0
    ensures Kind(buf[0]) == SUBACK ==>
      var scan := ScanLength(buf[..][1..], 4);
      var start := 1 + scan.attempts;
      var count := scan.value - 2;
      if count < 0 then rc == scan.attempts
      else
        && id == IntAt(buf[..], start)
        && (if count <= maxcount + 1
            then rc == 1 && codes == SignedChars(buf[start + 2..start + 2 + count])
            else rc == -1 && codes == SignedChars(buf[start + 2..start + 3 + maxcount]))
  {
    hide ScanLength, IntAt;
    rc, id, codes := 0, 0, [];
    if Kind(buf[0]) != SUBACK {
      return;
    }
    var n, mylen := DecodeBuf(buf, 1);
    if mylen < 2 {
      return n, id, codes;
    }
    id := ReadInt(buf, 1 + n);
    rc, codes := ReadCodes(buf, 3 + n, 1 + n + mylen, maxcount);
  }

  method ReadCodes(buf: array<byte>, start: nat, end: nat, maxcount: nat) returns (rc: int, codes: seq<int>)
    requires start <= end <= buf.Length
    ensures if end - start <= maxcount + 1
      then rc == 1 && codes == SignedChars(buf[start..end])
      else rc == -1 && codes == SignedChars(buf[start..start + maxcount + 1])
  {
    var curdata := start;
    codes := [];
    while curdata < end
      invariant start <= curdata <= end && curdata - start <= maxcount + 1
      invariant codes == SignedChars(buf[start..curdata])
    {
      if |codes| > maxcount {
        return -1, codes;
      }
      assert buf[start..curdata + 1] == buf[start..curdata] + [buf[curdata]];
      codes := codes + [SignedChar(buf[curdata])];
      curdata := curdata + 1;
    }
    rc := 1;
  }

  /** Section 3.9 of MQTT 3.1.1: a serialized SUBACK is found again, codes as signed characters. */
  lemma RoundTrip(s: seq<byte>, id: nat, codes: seq<int>)
    requires id <= 65535 && 2 + |codes| <= MAX_REMAINING_LENGTH
    requires Holds(s, 0, Frame(HEADER, Body(id, codes)))
    ensures Readable(s) && Kind(s[0]) == SUBACK
    ensures var scan := ScanLength(s[1..], 4);
            var start := 1 + scan.attempts;
            && scan.value == 2 + |codes| && start + scan.value <= |s|
            && IntAt(s, start) == id
            && (SignedChars(s[start + 2..start + 2 + |codes|]) == codes <==>
                forall i | 0 <= i < |codes| :: -128 <= codes[i] <= 127)
  {
    FieldsFound(s, id, codes);
    CodesAgree(codes);
  }

  lemma FieldsFound(s: seq<byte>, id: nat, codes: seq<int>)
    requires id <= 65535 && 2 + |codes| <= MAX_REMAINING_LENGTH
    requires Holds(s, 0, Frame(HEADER, Body(id, codes)))
    ensures var n := |LengthField(2 + |codes|)|;
            && s[0] == HEADER && 3 + n + |codes| <= |s|
            && ScanLength(s[1..], 4) == Scan(n, n, 2 + |codes|, true)
            && IntAt(s, 1 + n) == id
            && s[3 + n..3 + n + |codes|] == CodeBytes(codes)
  {
    hide Frame, ScanLength, IntAt, LengthField, CodeBytes, Int16;
    var start := 1 + |LengthField(2 + |codes|)|;
    FrameFound(s, HEADER, Body(id, codes));
    HoldsSplit(s, start, Int16(id), CodeBytes(codes));
    IntFound(s, start, id);
  }

  lemma CodesAgree(codes: seq<int>)
    ensures SignedChars(CodeBytes(codes)) == codes <==> forall i | 0 <= i < |codes| :: -128 <= codes[i] <= 127
  {
    var back := SignedChars(CodeBytes(codes));
    forall i | 0 <= i < |codes| ensures back[i] == codes[i] <==> -128 <= codes[i] <= 127 {
      CharRoundTrip(codes[i]);
    }
    if back == codes {
      forall i | 0 <= i < |codes| ensures -128 <= codes[i] <= 127 {
        assert back[i] == codes[i];
      }
    }
  }

  /** The failure code 128 of section 3.9.3 is read back as -128. */
  lemma FailureCodeReadsNegative()
    ensures SignedChars(CodeBytes([128])) == [-128]
  {
    assert CodeBytes([128]) == [128];
  }
}
