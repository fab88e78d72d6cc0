/** MQTTSerialize_unsubscribe and MQTTDeserialize_unsubscribe. */
module Unsubscribe {
  import opened Bytes
  import opened RemainingLength
  import opened Packet

  function FilterBytes(filters: seq<MqttString>): seq<byte> {
    if filters == [] then [] else StringBytes(filters[0]) + FilterBytes(filters[1..])
  }

  function Body(id: nat, filters: seq<MqttString>): seq<byte> {
    Int16(id) + FilterBytes(filters)
  }

  function Header(dup: bool): byte { HeaderByte(UNSUBSCRIBE, dup, 1, false) }

  /** What the length loop adds up. */
  ghost function Lengths(filters: seq<MqttString>): nat {
    if filters == [] then 0 else 2 + Strlen(filters[0]) + Lengths(filters[1..])
  }

  lemma {:induction false} LengthsAreBytes(filters: seq<MqttString>)
    requires AllCoherent(filters)
    ensures Lengths(filters) == |FilterBytes(filters)|
  {
    if filters != [] {
      StrlenIsWritten(filters[0]);
      LengthsAreBytes(filters[1..]);
    }
  }

  /** MQTTSerialize_unsubscribeLength: for coherent filters the size of the body the write loop emits. */
  method Length(filters: seq<MqttString>, ghost id: nat) returns (len: nat)
    ensures len == 2 + Lengths(filters)
    ensures AllCoherent(filters) ==> len == |Body(id, filters)|
  {
    len := 2;
    for i := 0 to |filters|
      invariant len + Lengths(filters[i..]) == 2 + Lengths(filters)
    {
      len := len + 2 + Strlen(filters[i]);
    }
    if AllCoherent(filters) {
      LengthsAreBytes(filters);
    }
  }

  /** The buffer must have room for what is written; the source's own check sees to that for coherent filters. */
  method Serialize(buf: array<byte>, buflen: nat, dup: bool, id: nat, filters: seq<MqttString>) returns (rc: int)
    requires buflen <= buf.Length
    requires PacketLen(2 + Lengths(filters)) <= buflen ==>
               |Emitted(Header(dup), 2 + Lengths(filters), Body(id, filters))| <= buf.Length
    modifies buf
    ensures var out := Emitted(Header(dup), 2 + Lengths(filters), Body(id, filters));
            && rc == (if PacketLen(2 + Lengths(filters)) > buflen then -2 else |out|)
            && (rc > 0 ==> buf[..rc] == out && buf[rc..] == old(buf[rc..]))
            && (rc <= 0 ==> buf[..] == old(buf[..]))
    ensures rc > 0 ==> buf[0] == 162 + if dup then 8 else 0
    ensures AllCoherent(filters) && |Body(id, filters)| <= MAX_REMAINING_LENGTH && rc > 0 ==>
              rc <= buflen && buf[..rc] == Frame(Header(dup), Body(id, filters))
  {
    hide LengthField, Lengths, FilterBytes;
    var remLen := Length(filters, id);
    if PacketLen(remLen) > buflen {
      return BUFFER_TOO_SHORT;
    }
    if AllCoherent(filters) && |Body(id, filters)| <= MAX_REMAINING_LENGTH {
      FrameFits(Header(dup), Body(id, filters), buflen);
    }
    var w := BeginPacket(buf, Header(dup), remLen);
    WriteBody(w, id, filters);
    rc := w.ptr;
  }

  /** The filters from i on, taken apart after `done`. */
  lemma FiltersStep(done: seq<byte>, filters: seq<MqttString>, i: nat)
    requires i <= |filters|
    ensures i == |filters| ==> FilterBytes(filters[i..]) == []
    ensures i < |filters| ==>
      && done + FilterBytes(filters[i..]) == (done + StringBytes(filters[i])) + FilterBytes(filters[i + 1..])
      && |done + FilterBytes(filters[i..])| >= |done| + |StringBytes(filters[i])|
  {
    hide StringBytes;
    if i < |filters| {
      assert filters[i..][1..] == filters[i + 1..];
    }
  }

  method WriteBody(w: Writer, id: nat, filters: seq<MqttString>)
    requires w.Valid() && w.ptr + |Body(id, filters)| <= w.buf.Length
    modifies w, w.buf
    ensures w.Valid() && w.Written() == old(w.Written()) + Body(id, filters)
  {
    hide StringBytes, Int16, Content, FilterBytes;
    w.Int(id);
    ghost var base, done: seq<byte> := w.Written(), [];
    assert filters[0..] == filters;
    for i := 0 to |filters|
      invariant w.Valid() && w.Written() == base + done
      invariant done + FilterBytes(filters[i..]) == FilterBytes(filters)
    {
      FiltersStep(done, filters, i);
      WriteString(w, filters[i]);
      done := done + StringBytes(filters[i]);
    }
    FiltersStep(done, filters, |filters|);
  }

  /** The filters found between `at` and `end`; `ok` is false when the last one is cut off. */
  datatype Filters = Filters(ok: bool, filters: seq<seq<byte>>)

  ghost function ParseFilters(s: seq<byte>, at: nat, end: nat): Filters
    requires end <= |s|
    decreases end - at
  {
    if at >= end then Filters(true, [])
    else
      match StringAt(s, at, end)
      case None => Filters(false, [])
      case Some(f) =>
        var rest := ParseFilters(s, at + 2 + |f|, end);
        Filters(rest.ok, [f] + rest.filters)
  }

  /** Every byte the reader touches lies in the buffer, the unchecked packet id included. */
  ghost predicate Readable(s: seq<byte>) {
    && 1 <= |s|
    && (Kind(s[0]) == UNSUBSCRIBE ==>
      var scan := ScanLength(s[1..], 4);
      var start := 1 + scan.attempts;
      FieldInside(s, 1) && start + 2 <= |s| && start + scan.value <= |s|)
  }

  ghost function FiltersOf(s: seq<byte>): Filters
    requires Readable(s) && Kind(s[0]) == UNSUBSCRIBE
  {
    var scan := ScanLength(s[1..], 4);
    ParseFilters(s, 3 + scan.attempts, 1 + scan.attempts + scan.value)
  }

  ghost function IdOf(s: seq<byte>): nat
    requires Readable(s) && Kind(s[0]) == UNSUBSCRIBE
  {
    IntAt(s, 1 + ScanLength(s[1..], 4).attempts)
  }

  method Deserialize(buf: array<byte>) returns (rc: int, dup: bool, id: nat, filters: seq<seq<byte>>)
    requires Readable(buf[..])
    ensures Kind(buf[0]) != UNSUBSCRIBE ==> rc == 0
    ensures Kind(buf[0]) == UNSUBSCRIBE ==>
      var e := FiltersOf(buf[..]);
      && rc == (if e.ok then 1 else ScanLength(buf[..][1..], 4).attempts)
      && dup == Dup(buf[0]) && id == IdOf(buf[..]) && filters == e.filters
  {
    hide ScanLength, ParseFilters, IntAt;
    rc, dup, id, filters := 0, false, 0, [];
    if Kind(buf[0]) != UNSUBSCRIBE {
      return;
    }
    dup := Dup(buf[0]);
    var n, mylen := DecodeBuf(buf, 1);
    id := ReadInt(buf, 1 + n);
    var ok;
    ok, filters := ReadFilters(buf, 3 + n, 1 + n + mylen);
    rc := if ok then 1 else n;
  }

  method ReadFilters(buf: array<byte>, start: nat, end: nat) returns (ok: bool, filters: seq<seq<byte>>)
    requires end <= buf.Length
    ensures Filters(ok, filters) == ParseFilters(buf[..], start, end)
  {
    hide StringAt, ParseFilters, Precede;
    var curdata := start;
    filters := [];
    NothingBefore(ParseFilters(buf[..], start, end));
    while curdata < end
      invariant Precede(filters, ParseFilters(buf[..], curdata, end)) == ParseFilters(buf[..], start, end)
      decreases end - curdata
    {
      FilterRead(buf[..], curdata, end, filters);
      var topic;
      topic, curdata := ReadString(buf, curdata, end);
      if topic.None? {
        return false, filters;
      }
      filters := filters + [topic.value];
    }
    FilterRead(buf[..], curdata, end, filters);
    ok := true;
  }

  /** The filters found so far, and what the rest yields. */
  ghost function Precede(filters: seq<seq<byte>>, rest: Filters): Filters {
    Filters(rest.ok, filters + rest.filters)
  }

  lemma NothingBefore(rest: Filters)
    ensures Precede([], rest) == rest
  {
    assert [] + rest.filters == rest.filters;
  }

  /** One more filter is read, or the list ends here. */
  lemma FilterRead(s: seq<byte>, at: nat, end: nat, filters: seq<seq<byte>>)
    requires end <= |s|
    ensures var f := if at < end then StringAt(s, at, end) else None;
            Precede(filters, ParseFilters(s, at, end)) ==
            if at >= end then Filters(true, filters)
            else if f.None? then Filters(false, filters)
            else Precede(filters + [f.value], ParseFilters(s, at + 2 + |f.value|, end))
  {
    hide StringAt;
    var f := if at < end then StringAt(s, at, end) else None;
    if f.Some? {
      var rest := ParseFilters(s, at + 2 + |f.value|, end);
      assert filters + ([f.value] + rest.filters) == filters + [f.value] + rest.filters;
    }
  }

  lemma {:induction false} FiltersFound(s: seq<byte>, at: nat, filters: seq<MqttString>)
    requires (forall m | m in filters :: |Content(m)| <= 65535) && Holds(s, at, FilterBytes(filters))
    ensures at + |FilterBytes(filters)| <= |s|
    ensures ParseFilters(s, at, at + |FilterBytes(filters)|) == Filters(true, Contents(filters))
    decreases |filters|
  {
    hide Content, Holds, StringAt, IntAt;
    HoldsFits(s, at, FilterBytes(filters));
    if filters != [] {
      var f, rest := StringBytes(filters[0]), FilterBytes(filters[1..]);
      HoldsSplit(s, at, f, rest);
      StringFound(s, at, filters[0], at + |f| + |rest|);
      FiltersFound(s, at + |f|, filters[1..]);
      assert Contents(filters) == [Content(filters[0])] + Contents(filters[1..]);
    }
  }

  /** Section 3.10 of MQTT 3.1.1: reading a serialized UNSUBSCRIBE restores dup, id and every filter in order. */
  lemma RoundTrip(s: seq<byte>, dup: bool, id: nat, filters: seq<MqttString>)
    requires (forall m | m in filters :: |Content(m)| <= 65535) && id <= 65535
    requires |Body(id, filters)| <= MAX_REMAINING_LENGTH
    requires Holds(s, 0, Frame(Header(dup), Body(id, filters)))
    ensures Readable(s) && Kind(s[0]) == UNSUBSCRIBE && Dup(s[0]) == dup && IdOf(s) == id
    ensures FiltersOf(s) == Filters(true, Contents(filters))
  {
    hide Body, Frame, Holds, ScanLength, IntAt, ParseFilters, HeaderByte, Contents;
    FieldsFound(s, dup, id, filters);
    HeaderRoundTrip(UNSUBSCRIBE, dup, 1, false);
  }

  lemma FieldsFound(s: seq<byte>, dup: bool, id: nat, filters: seq<MqttString>)
    requires (forall m | m in filters :: |Content(m)| <= 65535) && id <= 65535
    requires |Body(id, filters)| <= MAX_REMAINING_LENGTH
    requires Holds(s, 0, Frame(Header(dup), Body(id, filters)))
    ensures var len := |Body(id, filters)|;
            var n := |LengthField(len)|;
            && s[0] == Header(dup) && 1 + n + len <= |s| && len >= 2
            && ScanLength(s[1..], 4) == Scan(n, n, len, true)
            && IntAt(s, 1 + n) == id
            && ParseFilters(s, 3 + n, 1 + n + len) == Filters(true, Contents(filters))
  {
    hide Frame, Holds, ScanLength, IntAt, ParseFilters, HeaderByte, LengthField, Body, Contents;
    var body := Body(id, filters);
    FrameFound(s, Header(dup), body);
    BodyFound(s, 1 + |LengthField(|body|)|, id, filters);
  }

  lemma BodyFound(s: seq<byte>, start: nat, id: nat, filters: seq<MqttString>)
    requires (forall m | m in filters :: |Content(m)| <= 65535) && id <= 65535
    requires start + |Body(id, filters)| <= |s| && Holds(s, start, Body(id, filters))
    ensures |Body(id, filters)| >= 2 && IntAt(s, start) == id
    ensures ParseFilters(s, start + 2, start + |Body(id, filters)|) == Filters(true, Contents(filters))
  {
    hide Holds, IntAt, ParseFilters, FilterBytes, Int16, Contents;
    HoldsSplit(s, start, Int16(id), FilterBytes(filters));
    IntFound(s, start, id);
    FiltersFound(s, start + 2, filters);
  }
}
