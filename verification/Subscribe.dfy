/** MQTTSerialize_subscribe and MQTTDeserialize_subscribe. */
module Subscribe {
  import opened Bytes
  import opened RemainingLength
  import opened Packet

  /** Topic filters with their requested QoS, as they stand on the wire. */
  function RequestBytes(filters: seq<MqttString>, qoss: seq<int>): seq<byte>
    requires |filters| == |qoss|
  {
    if filters == [] then [] else EntryBytes(filters[0], qoss[0]) + RequestBytes(filters[1..], qoss[1..])
  }

  function EntryBytes(filter: MqttString, qos: int): (bs: seq<byte>)
    ensures |bs| == 3 + |Content(filter)|
  {
    StringBytes(filter) + [qos % 256]
  }

  function Body(id: nat, filters: seq<MqttString>, qoss: seq<int>): seq<byte>
    requires |filters| == |qoss|
  {
    Int16(id) + RequestBytes(filters, qoss)
  }

  function Header(dup: bool): byte { HeaderByte(SUBSCRIBE, dup, 1, false) }

  /** What the length loop adds up. */
  ghost function Lengths(filters: seq<MqttString>): nat {
    if filters == [] then 0 else 2 + Strlen(filters[0]) + 1 + Lengths(filters[1..])
  }

  lemma {:induction false} LengthsAreBytes(filters: seq<MqttString>, qoss: seq<int>)
    requires |filters| == |qoss| && AllCoherent(filters)
    ensures Lengths(filters) == |RequestBytes(filters, qoss)|
  {
    if filters != [] {
      StrlenIsWritten(filters[0]);
      LengthsAreBytes(filters[1..], qoss[1..]);
    }
  }

  /** MQTTSerialize_subscribeLength: for coherent filters the size of the body the write loop emits. */
  method Length(filters: seq<MqttString>, ghost id: nat, ghost qoss: seq<int>) returns (len: nat)
    requires |filters| == |qoss|
    ensures len == 2 + Lengths(filters)
    ensures AllCoherent(filters) ==> len == |Body(id, filters, qoss)|
  {
    len := 2;
    for i := 0 to |filters|
      invariant len + Lengths(filters[i..]) == 2 + Lengths(filters)
    {
      len := len + 2 + Strlen(filters[i]) + 1;
    }
    if AllCoherent(filters) {
      LengthsAreBytes(filters, qoss);
    }
  }

  /** The buffer must have room for what is written; the source's own check sees to that for coherent filters. */
  method Serialize(buf: array<byte>, buflen: nat, dup: bool, id: nat, filters: seq<MqttString>, qoss: seq<int>)
    returns (rc: int)
    requires buflen <= buf.Length && |filters| == |qoss|
    requires PacketLen(2 + Lengths(filters)) <= buflen ==>
               |Emitted(Header(dup), 2 + Lengths(filters), Body(id, filters, qoss))| <= buf.Length
    modifies buf
    ensures var out := Emitted(Header(dup), 2 + Lengths(filters), Body(id, filters, qoss));
            && rc == (if PacketLen(2 + Lengths(filters)) > buflen then -2 else |out|)
            && (rc > 0 ==> buf[..rc] == out && buf[rc..] == old(buf[rc..]))
            && (rc <= 0 ==> buf[..] == old(buf[..]))
    ensures rc > 0 ==> buf[0] == 130 + if dup then 8 else 0
    ensures AllCoherent(filters) && |Body(id, filters, qoss)| <= MAX_REMAINING_LENGTH && rc > 0 ==>
              rc <= buflen && buf[..rc] == Frame(Header(dup), Body(id, filters, qoss))
  {
    hide LengthField, Lengths, RequestBytes;
    var remLen := Length(filters, id, qoss);
    if PacketLen(remLen) > buflen {
      return BUFFER_TOO_SHORT;
    }
    if AllCoherent(filters) && |Body(id, filters, qoss)| <= MAX_REMAINING_LENGTH {
      FrameFits(Header(dup), Body(id, filters, qoss), buflen);
    }
    var w := BeginPacket(buf, Header(dup), remLen);
    WriteBody(w, id, filters, qoss);
    rc := w.ptr;
  }

  /** The entries from i on, taken apart after `done`. */
  lemma EntriesStep(done: seq<byte>, filters: seq<MqttString>, qoss: seq<int>, i: nat)
    requires |filters| == |qoss| && i <= |filters|
    ensures i == |filters| ==> RequestBytes(filters[i..], qoss[i..]) == []
    ensures i < |filters| ==>
      && done + RequestBytes(filters[i..], qoss[i..]) ==
         (done + EntryBytes(filters[i], qoss[i])) + RequestBytes(filters[i + 1..], qoss[i + 1..])
      && |done + RequestBytes(filters[i..], qoss[i..])| >= |done| + |EntryBytes(filters[i], qoss[i])|
  {
    hide EntryBytes;
    if i < |filters| {
      assert filters[i..][1..] == filters[i + 1..] && qoss[i..][1..] == qoss[i + 1..];
    }
  }

  method WriteBody(w: Writer, id: nat, filters: seq<MqttString>, qoss: seq<int>)
    requires |filters| == |qoss|
    requires w.Valid() && w.ptr + |Body(id, filters, qoss)| <= w.buf.Length
    modifies w, w.buf
    ensures w.Valid() && w.Written() == old(w.Written()) + Body(id, filters, qoss)
  {
    hide EntryBytes, Int16, RequestBytes;
    w.Int(id);
    ghost var base, done: seq<byte> := w.Written(), [];
    assert filters[0..] == filters && qoss[0..] == qoss;
    for i := 0 to |filters|
      invariant w.Valid() && w.Written() == base + done
      invariant done + RequestBytes(filters[i..], qoss[i..]) == RequestBytes(filters, qoss)
    {
      EntriesStep(done, filters, qoss, i);
      WriteEntry(w, filters[i], qoss[i]);
      done := done + EntryBytes(filters[i], qoss[i]);
    }
    EntriesStep(done, filters, qoss, |filters|);
  }

  method WriteEntry(w: Writer, filter: MqttString, qos: int)
    requires w.Valid() && w.ptr + |EntryBytes(filter, qos)| <= w.buf.Length
    modifies w, w.buf
    ensures w.Valid() && w.Written() == old(w.Written()) + EntryBytes(filter, qos)
  {
    WriteString(w, filter);
    w.Char(qos);
  }

  /** The entries found between `at` and `end`; `ok` is false when the last one is cut off. */
  datatype Entries = Entries(ok: bool, filters: seq<seq<byte>>, qoss: seq<int>)

  ghost function ParseEntries(s: seq<byte>, at: nat, end: nat): (r: Entries)
    requires end <= |s|
    ensures |r.filters| == |r.qoss|
    decreases end - at
  {
    if at >= end then Entries(true, [], [])
    else
      match StringAt(s, at, end)
      case None => Entries(false, [], [])
      case Some(f) =>
        var qosAt := at + 2 + |f|;
        if qosAt >= end then Entries(false, [], [])
        else
          var rest := ParseEntries(s, qosAt + 1, end);
          Entries(rest.ok, [f] + rest.filters, [SignedChar(s[qosAt])] + rest.qoss)
  }

  /** Every byte the reader touches lies in the buffer, the unchecked packet id included. */
  ghost predicate Readable(s: seq<byte>) {
    && 1 <= |s|
    && (Kind(s[0]) == SUBSCRIBE ==>
      var scan := ScanLength(s[1..], 4);
      var start := 1 + scan.attempts;
      FieldInside(s, 1) && start + 2 <= |s| && start + scan.value <= |s|)
  }

  /** The entries of a readable SUBSCRIBE. */
  ghost function EntriesOf(s: seq<byte>): Entries
    requires Readable(s) && Kind(s[0]) == SUBSCRIBE
  {
    var scan := ScanLength(s[1..], 4);
    ParseEntries(s, 3 + scan.attempts, 1 + scan.attempts + scan.value)
  }

  ghost function IdOf(s: seq<byte>): nat
    requires Readable(s) && Kind(s[0]) == SUBSCRIBE
  {
    IntAt(s, 1 + ScanLength(s[1..], 4).attempts)
  }

  method Deserialize(buf: array<byte>)
    returns (rc: int, dup: bool, id: nat, filters: seq<seq<byte>>, qoss: seq<int>)
    requires Readable(buf[..])
    ensures Kind(buf[0]) != SUBSCRIBE ==> rc == -1
    ensures Kind(buf[0]) == SUBSCRIBE ==>
      var e := EntriesOf(buf[..]);
      && rc == (if e.ok then 1 else ScanLength(buf[..][1..], 4).attempts)
      && dup == Dup(buf[0]) && id == IdOf(buf[..]) && filters == e.filters && qoss == e.qoss
  {
    hide ScanLength, ParseEntries, IntAt;
    rc, dup, id, filters, qoss := -1, false, 0, [], [];
    if Kind(buf[0]) != SUBSCRIBE {
      return;
    }
    dup := Dup(buf[0]);
    var n, mylen := DecodeBuf(buf, 1);
    id := ReadInt(buf, 1 + n);
    var ok;
    ok, filters, qoss := ReadEntries(buf, 3 + n, 1 + n + mylen);
    rc := if ok then 1 else n;
  }

  method ReadEntries(buf: array<byte>, start: nat, end: nat) returns (ok: bool, filters: seq<seq<byte>>, qoss: seq<int>)
    requires end <= buf.Length
    ensures Entries(ok, filters, qoss) == ParseEntries(buf[..], start, end)
  {
    hide ParseEntries, Precede, StringAt, SignedChar;
    var curdata := start;
    filters, qoss := [], [];
    NothingBefore(ParseEntries(buf[..], start, end));
    while curdata < end
      invariant Precede(filters, qoss, ParseEntries(buf[..], curdata, end)) == ParseEntries(buf[..], start, end)
      decreases end - curdata
    {
      EntryRead(buf[..], curdata, end, filters, qoss);
      var topic;
      topic, curdata := ReadString(buf, curdata, end);
      if topic.None? {
        return false, filters, qoss;
      }
      if curdata >= end {
        return false, filters, qoss;
      }
      filters := filters + [topic.value];
      qoss := qoss + [SignedChar(buf[curdata])];
      curdata := curdata + 1;
    }
    EntryRead(buf[..], curdata, end, filters, qoss);
    ok := true;
  }

  /** The entries found so far, and what the rest yields. */
  ghost function Precede(filters: seq<seq<byte>>, qoss: seq<int>, rest: Entries): Entries {
    Entries(rest.ok, filters + rest.filters, qoss + rest.qoss)
  }

  lemma NothingBefore(rest: Entries)
    ensures Precede([], [], rest) == rest
  {
    assert [] + rest.filters == rest.filters && [] + rest.qoss == rest.qoss;
  }

  /** One more entry is read, or the list ends here. */
  lemma EntryRead(s: seq<byte>, at: nat, end: nat, filters: seq<seq<byte>>, qoss: seq<int>)
    requires end <= |s|
    ensures var f := if at < end then StringAt(s, at, end) else None;
            Precede(filters, qoss, ParseEntries(s, at, end)) ==
            if at >= end then Entries(true, filters, qoss)
            else if f.None? || at + 2 + |f.value| >= end then Entries(false, filters, qoss)
            else Precede(filters + [f.value], qoss + [SignedChar(s[at + 2 + |f.value|])],
                         ParseEntries(s, at + 2 + |f.value| + 1, end))
  {
    hide StringAt, SignedChar;
    var f := if at < end then StringAt(s, at, end) else None;
    if f.Some? && at + 2 + |f.value| < end {
      var q, rest := SignedChar(s[at + 2 + |f.value|]), ParseEntries(s, at + 2 + |f.value| + 1, end);
      assert filters + ([f.value] + rest.filters) == filters + [f.value] + rest.filters;
      assert qoss + ([q] + rest.qoss) == qoss + [q] + rest.qoss;
    }
  }

  ghost function SignedChars(qoss: seq<int>): seq<int> {
    seq(|qoss|, i requires 0 <= i < |qoss| => SignedChar(qoss[i] % 256))
  }

  lemma {:induction false} EntriesFound(s: seq<byte>, at: nat, filters: seq<MqttString>, qoss: seq<int>)
    requires |filters| == |qoss| && (forall m | m in filters :: |Content(m)| <= 65535)
    requires Holds(s, at, RequestBytes(filters, qoss))
    ensures ParseEntries(s, at, at + |RequestBytes(filters, qoss)|) ==
            Entries(true, Contents(filters), SignedChars(qoss))
    decreases |filters|
  {
    hide EntryBytes, Content, StringBytes, Holds, StringAt, IntAt;
    HoldsFits(s, at, RequestBytes(filters, qoss));
    if filters != [] {
      var entry, rest := EntryBytes(filters[0], qoss[0]), RequestBytes(filters[1..], qoss[1..]);
      HoldsSplit(s, at, entry, rest);
      EntryFound(s, at, filters[0], qoss[0], at + |entry| + |rest|);
      EntriesFound(s, at + |entry|, filters[1..], qoss[1..]);
      assert Contents(filters) == [Content(filters[0])] + Contents(filters[1..]);
      assert SignedChars(qoss) == [SignedChar(qoss[0] % 256)] + SignedChars(qoss[1..]);
    }
  }

  lemma EntryFound(s: seq<byte>, at: nat, filter: MqttString, qos: int, end: nat)
    requires |Content(filter)| <= 65535
    requires Holds(s, at, EntryBytes(filter, qos)) && at + |EntryBytes(filter, qos)| <= end <= |s|
    ensures StringAt(s, at, end) == Some(Content(filter))
    ensures s[at + 2 + |Content(filter)|] == qos % 256
  {
    var f := StringBytes(filter);
    HoldsSplit(s, at, f, [qos % 256]);
    StringFound(s, at, filter, end);
    assert s[at + |f|] == s[at + |f|..at + |f| + 1][0];
  }

  lemma SignedCharsAgree(qoss: seq<int>)
    ensures SignedChars(qoss) == qoss <==> forall i | 0 <= i < |qoss| :: -128 <= qoss[i] <= 127
  {
    forall i | 0 <= i < |qoss| ensures SignedChars(qoss)[i] == qoss[i] <==> -128 <= qoss[i] <= 127 {
      CharRoundTrip(qoss[i]);
    }
    if SignedChars(qoss) == qoss {
      forall i | 0 <= i < |qoss| ensures -128 <= qoss[i] <= 127 {
        assert SignedChars(qoss)[i] == qoss[i];
      }
    }
  }

  /** Section 3.8 of MQTT 3.1.1: reading a serialized SUBSCRIBE restores dup, id and every filter in order;
      the QoS values come back exactly when they are signed bytes. */
  lemma RoundTrip(s: seq<byte>, dup: bool, id: nat, filters: seq<MqttString>, qoss: seq<int>)
    requires |filters| == |qoss| && (forall m | m in filters :: |Content(m)| <= 65535) && id <= 65535
    requires |Body(id, filters, qoss)| <= MAX_REMAINING_LENGTH
    requires Holds(s, 0, Frame(Header(dup), Body(id, filters, qoss)))
    ensures Readable(s) && Kind(s[0]) == SUBSCRIBE && Dup(s[0]) == dup && IdOf(s) == id
    ensures EntriesOf(s).ok && EntriesOf(s).filters == Contents(filters)
    ensures EntriesOf(s).qoss == qoss <==> forall i | 0 <= i < |qoss| :: -128 <= qoss[i] <= 127
  {
    hide Body, Frame, Holds, ScanLength, IntAt, ParseEntries, HeaderByte, Contents, SignedChars;
    FieldsFound(s, dup, id, filters, qoss);
    HeaderRoundTrip(SUBSCRIBE, dup, 1, false);
    SignedCharsAgree(qoss);
  }

  lemma FieldsFound(s: seq<byte>, dup: bool, id: nat, filters: seq<MqttString>, qoss: seq<int>)
    requires |filters| == |qoss| && (forall m | m in filters :: |Content(m)| <= 65535) && id <= 65535
    requires |Body(id, filters, qoss)| <= MAX_REMAINING_LENGTH
    requires Holds(s, 0, Frame(Header(dup), Body(id, filters, qoss)))
    ensures var len := |Body(id, filters, qoss)|;
            var n := |LengthField(len)|;
            && s[0] == Header(dup) && 1 + n + len <= |s| && len >= 2
            && ScanLength(s[1..], 4) == Scan(n, n, len, true)
            && IntAt(s, 1 + n) == id
            && ParseEntries(s, 3 + n, 1 + n + len) == Entries(true, Contents(filters), SignedChars(qoss))
  {
    hide Frame, Holds, ScanLength, IntAt, ParseEntries, HeaderByte, LengthField, Body, Content, Contents, SignedChars;
    var body := Body(id, filters, qoss);
    var start := 1 + |LengthField(|body|)|;
    FrameFound(s, Header(dup), body);
    BodyFound(s, start, id, filters, qoss);
  }

  lemma BodyFound(s: seq<byte>, start: nat, id: nat, filters: seq<MqttString>, qoss: seq<int>)
    requires |filters| == |qoss| && (forall m | m in filters :: |Content(m)| <= 65535) && id <= 65535
    requires Holds(s, start, Body(id, filters, qoss))
    ensures var len := |Body(id, filters, qoss)|;
            && start + len <= |s| && len >= 2 && IntAt(s, start) == id
            && ParseEntries(s, start + 2, start + len) == Entries(true, Contents(filters), SignedChars(qoss))
  {
    hide Holds, IntAt, ParseEntries, RequestBytes, Contents, SignedChars;
    HoldsFits(s, start, Body(id, filters, qoss));
    HoldsSplit(s, start, Int16(id), RequestBytes(filters, qoss));
    IntFound(s, start, id);
    EntriesFound(s, start + 2, filters, qoss);
  }
}
