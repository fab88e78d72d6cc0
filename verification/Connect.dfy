/** MQTTSerialize_connect and MQTTDeserialize_connect. */
module Connect {
  import opened Bytes
  import opened RemainingLength
  import opened Packet

  datatype Will = Will(topic: MqttString, message: MqttString, qos: QoS, retained: bool)

  datatype Options = Options(
    version: nat, clientId: MqttString, keepAlive: nat, cleanSession: bool,
    willFlag: bool, will: Will, username: MqttString, password: MqttString)

  const MQTT_NAME: seq<byte> := [77, 81, 84, 84]
  const MQISDP_NAME: seq<byte> := [77, 81, 73, 115, 100, 112]

  /** MQTTSerialize_connectLength: versions other than 3 and 4 contribute no fixed part. */
  function ConnectLength(c: Options): nat {
    (if c.version == 3 then 12 else if c.version == 4 then 10 else 0)
    + Strlen(c.clientId) + 2
    + (if c.willFlag then Strlen(c.will.topic) + 2 + Strlen(c.will.message) + 2 else 0)
    + (if Present(c.username) then Strlen(c.username) + 2 else 0)
    + (if Present(c.password) then Strlen(c.password) + 2 else 0)
  }

  /** The connect flags, from the reserved bit up: clean session, will, will QoS, will retain, password, username. */
  function Flags(cleanSession: bool, will: bool, qos: QoS, retained: bool, password: bool, username: bool): byte {
    (if cleanSession then 2 else 0)
    + (if will then 4 + 8 * qos + (if retained then 32 else 0) else 0)
    + (if password then 64 else 0) + (if username then 128 else 0)
  }

  predicate FlagClean(f: byte) { f / 2 % 2 == 1 }
  predicate FlagWill(f: byte) { f / 4 % 2 == 1 }
  function FlagWillQos(f: byte): QoS { f / 8 % 4 }
  predicate FlagWillRetain(f: byte) { f / 32 % 2 == 1 }
  predicate FlagPassword(f: byte) { f / 64 % 2 == 1 }
  predicate FlagUsername(f: byte) { f / 128 % 2 == 1 }

  lemma FlagsRoundTrip(clean: bool, will: bool, qos: QoS, retained: bool, password: bool, username: bool)
    ensures var f := Flags(clean, will, qos, retained, password, username);
            && FlagClean(f) == clean && FlagWill(f) == will
            && FlagPassword(f) == password && FlagUsername(f) == username
            && (will ==> FlagWillQos(f) == qos && FlagWillRetain(f) == retained)
  {
    var f: nat := Flags(clean, will, qos, retained, password, username);
    var c, w := if clean then 1 else 0, if will then 1 else 0;
    var p, u := if password then 1 else 0, if username then 1 else 0;
    var q, r := if will then qos else 0, if will && retained then 1 else 0;
    Digits(f, c, w, q, r, p, u);
  }

  lemma Digits(f: nat, c: nat, w: nat, q: nat, r: nat, p: nat, u: nat)
    requires c < 2 && w < 2 && q < 4 && r < 2 && p < 2 && u < 2
    requires f == 2 * c + 4 * w + 8 * q + 32 * r + 64 * p + 128 * u
    ensures f / 2 % 2 == c && f / 4 % 2 == w && f / 8 % 4 == q && f / 32 % 2 == r && f / 64 % 2 == p && f / 128 % 2 == u
  {
    assert f / 4 == w + 2 * (q + 4 * r + 8 * p + 16 * u);
    assert f / 8 == q + 4 * (r + 2 * p + 4 * u);
    assert f / 32 == r + 2 * (p + 2 * u);
    assert f / 64 == p + 2 * u;
  }

  const HEADER: byte := HeaderByte(CONNECT, false, 0, false)

  function FlagsOf(c: Options): byte {
    Flags(c.cleanSession, c.willFlag, c.will.qos, c.will.retained, Present(c.password), Present(c.username))
  }

  function ProtocolBytes(c: Options): seq<byte> {
    if c.version == 4 then Int16(4) + MQTT_NAME + [4] else Int16(6) + MQISDP_NAME + [3]
  }

  function WillBytes(c: Options): seq<byte> {
    if c.willFlag then StringBytes(c.will.topic) + StringBytes(c.will.message) else []
  }

  function OptionalBytes(m: MqttString): seq<byte> {
    if Present(m) then StringBytes(m) else []
  }

  function LoginBytes(c: Options): seq<byte> {
    OptionalBytes(c.username) + OptionalBytes(c.password)
  }

  function SessionBytes(c: Options): (bs: seq<byte>)
    ensures |bs| == 5 + |Content(c.clientId)|
  {
    [FlagsOf(c)] + Int16(c.keepAlive) + StringBytes(c.clientId)
  }

  function Body(c: Options): (body: seq<byte>)
    ensures |body| == |ProtocolBytes(c)| + |SessionBytes(c)| + |WillBytes(c)| + |LoginBytes(c)|
  {
    ProtocolBytes(c) + (SessionBytes(c) + (WillBytes(c) + LoginBytes(c)))
  }

  predicate CoherentOptions(c: Options) {
    && Coherent(c.clientId) && Coherent(c.username) && Coherent(c.password)
    && (c.willFlag ==> Coherent(c.will.topic) && Coherent(c.will.message))
  }

  /** The computed length is the size of the body exactly for the two known versions. */
  lemma LengthIsBody(c: Options)
    requires CoherentOptions(c)
    ensures ConnectLength(c) == |Body(c)| <==> c.version in {3, 4}
  {
    StrlenIsWritten(c.clientId);
    StrlenIsWritten(c.username);
    StrlenIsWritten(c.password);
    StrlenIsWritten(c.will.topic);
    StrlenIsWritten(c.will.message);
  }

  lemma HeaderIs()
    ensures HEADER == 16
  {
  }

  /** The buffer must have room for what is written; the source's own check sees to that for versions 3 and 4 and
      coherent strings. Any other version is written as version 3. */
  method Serialize(buf: array<byte>, buflen: nat, c: Options) returns (rc: int)
    requires buflen <= buf.Length
    requires PacketLen(ConnectLength(c)) <= buflen ==> |Emitted(HEADER, ConnectLength(c), Body(c))| <= buf.Length
    modifies buf
    ensures var out := Emitted(HEADER, ConnectLength(c), Body(c));
            && rc == (if PacketLen(ConnectLength(c)) > buflen then -2 else |out|)
            && (rc > 0 ==> buf[..rc] == out && buf[rc..] == old(buf[rc..]))
            && (rc <= 0 ==> buf[..] == old(buf[..]))
    ensures rc > 0 ==> buf[0] == 16
    ensures CoherentOptions(c) && c.version in {3, 4} && |Body(c)| <= MAX_REMAINING_LENGTH && rc > 0 ==>
              rc <= buflen && buf[..rc] == Frame(HEADER, Body(c))
  {
    hide Body, HeaderByte, LengthField, CoherentOptions, ConnectLength;
    HeaderIs();
    var len := ConnectLength(c);
    if PacketLen(len) > buflen {
      return BUFFER_TOO_SHORT;
    }
    if CoherentOptions(c) && c.version in {3, 4} && |Body(c)| <= MAX_REMAINING_LENGTH {
      LengthIsBody(c);
      FrameFits(HEADER, Body(c), buflen);
    }
    var w := BeginPacket(buf, HEADER, len);
    WriteBody(w, c);
    rc := w.ptr;
  }

  method WriteBody(w: Writer, c: Options)
    requires w.Valid() && w.ptr + |Body(c)| <= w.buf.Length
    modifies w, w.buf
    ensures w.Valid() && w.Written() == old(w.Written()) + Body(c)
  {
    hide ProtocolBytes, SessionBytes, WillBytes, LoginBytes;
    WriteProtocol(w, c);
    WriteSession(w, c);
    WriteWill(w, c);
    WriteLogin(w, c);
  }

  method WriteLogin(w: Writer, c: Options)
    requires w.Valid() && w.ptr + |LoginBytes(c)| <= w.buf.Length
    modifies w, w.buf
    ensures w.Valid() && w.Written() == old(w.Written()) + LoginBytes(c)
  {
    hide OptionalBytes, Present;
    AbsentIsEmpty(c);
    if Present(c.username) {
      WriteOptional(w, c.username);
    }
    if Present(c.password) {
      WriteOptional(w, c.password);
    }
  }

  lemma AbsentIsEmpty(c: Options)
    ensures !Present(c.username) ==> OptionalBytes(c.username) == []
    ensures !Present(c.password) ==> OptionalBytes(c.password) == []
  {
  }

  method WriteProtocol(w: Writer, c: Options)
    requires w.Valid() && w.ptr + |ProtocolBytes(c)| <= w.buf.Length
    modifies w, w.buf
    ensures w.Valid() && w.Written() == old(w.Written()) + ProtocolBytes(c)
  {
    hide Int16;
    if c.version == 4 {
      w.Int(4);
      w.Copy(MQTT_NAME);
      w.Char(4);
    } else {
      w.Int(6);
      w.Copy(MQISDP_NAME);
      w.Char(3);
    }
  }

  method WriteSession(w: Writer, c: Options)
    requires w.Valid() && w.ptr + |SessionBytes(c)| <= w.buf.Length
    modifies w, w.buf
    ensures w.Valid() && w.Written() == old(w.Written()) + SessionBytes(c)
  {
    hide StringBytes, Int16;
    w.Char(FlagsOf(c));
    w.Int(c.keepAlive);
    WriteString(w, c.clientId);
  }

  method WriteWill(w: Writer, c: Options)
    requires w.Valid() && w.ptr + |WillBytes(c)| <= w.buf.Length
    modifies w, w.buf
    ensures w.Valid() && w.Written() == old(w.Written()) + WillBytes(c)
  {
    hide StringBytes;
    if c.willFlag {
      WriteString(w, c.will.topic);
      WriteString(w, c.will.message);
    }
  }

  method WriteOptional(w: Writer, m: MqttString)
    requires Present(m)
    requires w.Valid() && w.ptr + |OptionalBytes(m)| <= w.buf.Length
    modifies w, w.buf
    ensures w.Valid() && w.Written() == old(w.Written()) + OptionalBytes(m)
  {
    WriteString(w, m);
  }

  /** MQTTPacket_checkVersion: only as many characters as both names have are compared. */
  predicate CheckVersion(protocol: seq<byte>, version: byte) {
    || (version == 3 && SamePrefix(protocol, MQISDP_NAME))
    || (version == 4 && SamePrefix(protocol, MQTT_NAME))
  }

  predicate SamePrefix(a: seq<byte>, b: seq<byte>) {
    var n := if |a| < |b| then |a| else |b|;
    a[..n] == b[..n]
  }

  /** The version number has to be 3 or 4; of the name any prefix will do, and anything that goes on after it. */
  lemma VersionsAccepted(version: byte, rest: seq<byte>)
    ensures forall protocol :: CheckVersion(protocol, version) ==> version in {3, 4}
    ensures CheckVersion([77, 81, 84, 84] + rest, 4) && CheckVersion([77, 81, 73, 115, 100, 112] + rest, 3)
    ensures CheckVersion([], 3) && CheckVersion([], 4) && CheckVersion([77, 81], 4)
    ensures !CheckVersion([77, 81, 73, 115, 100, 112], 4) && !CheckVersion([77, 81, 84, 84], 3)
  {
    var long, short := [77, 81, 73, 115, 100, 112], [77, 81, 84, 84];
    assert (short + rest)[..4] == short && (long + rest)[..6] == long;
    assert long[..4][2] == 73 && short[2] == 84;
  }

  datatype WillRead = WillRead(topic: seq<byte>, message: seq<byte>, qos: QoS, retained: bool)

  /** What an accepted CONNECT fills in. The version is not stored. */
  datatype Request = Request(
    cleanSession: bool, keepAlive: nat, clientId: seq<byte>,
    will: Option<WillRead>, username: Option<seq<byte>>, password: Option<seq<byte>>)

  /** The will, if the flag asks for one, and where the next field starts. */
  ghost function ParseWill(s: seq<byte>, flags: byte, at: nat, end: nat): Option<(Option<WillRead>, nat)>
    requires end <= |s|
  {
    if !FlagWill(flags) then Some((None, at))
    else
      match StringAt(s, at, end)
      case None => None
      case Some(topic) =>
        match StringAt(s, at + 2 + |topic|, end)
        case None => None
        case Some(message) =>
          Some((Some(WillRead(topic, message, FlagWillQos(flags), FlagWillRetain(flags))),
                at + 4 + |topic| + |message|))
  }

  /** A string that is refused when fewer than three bytes are left. */
  ghost function NonEmptyAt(s: seq<byte>, at: nat, end: nat): (r: Option<seq<byte>>)
    requires end <= |s|
    ensures r.Some? ==> at + 2 + |r.value| <= end
  {
    if end - at < 3 then None else StringAt(s, at, end)
  }

  ghost function ParseLogin(s: seq<byte>, flags: byte, at: nat, end: nat):
      Option<(Option<seq<byte>>, Option<seq<byte>>)>
    requires end <= |s|
  {
    if !FlagUsername(flags) then if FlagPassword(flags) then None else Some((None, None))
    else
      match NonEmptyAt(s, at, end)
      case None => None
      case Some(user) =>
        if !FlagPassword(flags) then Some((Some(user), None))
        else
          match NonEmptyAt(s, at + 2 + |user|, end)
          case None => None
          case Some(password) => Some((Some(user), Some(password)))
  }

  /** The fields after the version byte; `at` is the offset of the flags. */
  ghost function ParseFields(s: seq<byte>, at: nat, end: nat): Option<Request>
    requires at + 3 <= |s| && end <= |s|
  {
    match StringAt(s, at + 3, end)
    case None => None
    case Some(clientId) =>
      match ParseWill(s, s[at], at + 5 + |clientId|, end)
      case None => None
      case Some((will, next)) =>
        match ParseLogin(s, s[at], next, end)
        case None => None
        case Some((user, password)) =>
          Some(Request(FlagClean(s[at]), IntAt(s, at + 1), clientId, will, user, password))
  }

  /** Every byte the reader touches lies in the buffer; version, flags and keep-alive are read without a check. */
  ghost predicate Readable(s: seq<byte>, len: nat) {
    && 1 <= |s| && len <= |s|
    && (Kind(s[0]) == CONNECT ==>
      && FieldInside(s, 1)
      && var at := 1 + ScanLength(s[1..], 4).attempts;
         match StringAt(s, at, len)
         case None => true
         case Some(protocol) =>
           var v := at + 2 + |protocol|;
           v < |s| && (CheckVersion(protocol, s[v]) ==> v + 4 <= |s|))
  }

  ghost function Parse(s: seq<byte>, len: nat): Option<Request>
    requires Readable(s, len)
  {
    if Kind(s[0]) != CONNECT then None
    else
      var at := 1 + ScanLength(s[1..], 4).attempts;
      match StringAt(s, at, len)
      case None => None
      case Some(protocol) =>
        var v := at + 2 + |protocol|;
        if CheckVersion(protocol, s[v]) then ParseFields(s, v + 1, len) else None
  }

  /** The end of the data is the caller's `len`, not the remaining length of the packet. */
  method Deserialize(buf: array<byte>, len: nat) returns (rc: int, r: Option<Request>)
    requires Readable(buf[..], len)
    ensures r == Parse(buf[..], len) && rc == if r.Some? then 1 else 0
  {
    hide ScanLength, ParseFields, CheckVersion, Kind, IntAt;
    rc, r := 0, None;
    if Kind(buf[0]) != CONNECT {
      return;
    }
    var n, mylen := DecodeBuf(buf, 1);
    var protocol, curdata := ReadString(buf, 1 + n, len);
    if protocol.None? {
      return;
    }
    if CheckVersion(protocol.value, buf[curdata]) {
      r := ReadFields(buf, curdata + 1, len);
      rc := if r.Some? then 1 else 0;
    }
  }

  method ReadFields(buf: array<byte>, at: nat, end: nat) returns (r: Option<Request>)
    requires at + 3 <= buf.Length && end <= buf.Length
    ensures r == ParseFields(buf[..], at, end)
  {
    hide IntAt, ParseWill, ParseLogin, FlagClean;
    r := None;
    var flags := buf[at];
    var keepAlive := ReadInt(buf, at + 1);
    var clientId, curdata := ReadString(buf, at + 3, end);
    if clientId.None? {
      return;
    }
    var will := ReadWill(buf, flags, curdata, end);
    if will.None? {
      return;
    }
    var login := ReadLogin(buf, flags, will.value.1, end);
    if login.None? {
      return;
    }
    r := Some(Request(FlagClean(flags), keepAlive, clientId.value, will.value.0, login.value.0, login.value.1));
  }

  method ReadWill(buf: array<byte>, flags: byte, at: nat, end: nat) returns (r: Option<(Option<WillRead>, nat)>)
    requires end <= buf.Length
    ensures r == ParseWill(buf[..], flags, at, end)
  {
    if !FlagWill(flags) {
      return Some((None, at));
    }
    var topic, message, curdata;
    topic, curdata := ReadString(buf, at, end);
    if topic.None? {
      return None;
    }
    message, curdata := ReadString(buf, curdata, end);
    if message.None? {
      return None;
    }
    r := Some((Some(WillRead(topic.value, message.value, FlagWillQos(flags), FlagWillRetain(flags))), curdata));
  }

  method ReadLogin(buf: array<byte>, flags: byte, at: nat, end: nat)
    returns (r: Option<(Option<seq<byte>>, Option<seq<byte>>)>)
    requires end <= buf.Length
    ensures r == ParseLogin(buf[..], flags, at, end)
  {
    r := None;
    if !FlagUsername(flags) {
      return if FlagPassword(flags) then None else Some((None, None));
    }
    if end < at + 3 {
      return;
    }
    var user, curdata := ReadString(buf, at, end);
    if user.None? {
      return;
    }
    var password: Option<seq<byte>> := None;
    if FlagPassword(flags) {
      if end < curdata + 3 {
        return;
      }
      password, curdata := ReadString(buf, curdata, end);
      if password.None? {
        return;
      }
    }
    r := Some((user, password));
  }

  predicate Short(m: MqttString) { |Content(m)| <= 65535 }

  predicate AllShort(c: Options) {
    && Short(c.clientId) && Short(c.username) && Short(c.password) && c.keepAlive <= 65535
    && (c.willFlag ==> Short(c.will.topic) && Short(c.will.message))
  }

  function OptionalContent(m: MqttString): Option<seq<byte>> {
    if Present(m) then Some(Content(m)) else None
  }

  /** A password needs a username and at least one byte; a username alone needs at least one byte. */
  predicate LoginAccepted(c: Options) {
    && (Present(c.password) ==> Present(c.username) && |Content(c.password)| > 0)
    && (Present(c.username) && !Present(c.password) ==> |Content(c.username)| > 0)
  }

  function Restored(c: Options): Request {
    Request(c.cleanSession, c.keepAlive, Content(c.clientId),
            if c.willFlag then
              Some(WillRead(Content(c.will.topic), Content(c.will.message), c.will.qos, c.will.retained))
            else None,
            OptionalContent(c.username), OptionalContent(c.password))
  }

  lemma LoginFound(s: seq<byte>, c: Options, at: nat)
    requires AllShort(c) && Holds(s, at, LoginBytes(c))
    ensures at + |LoginBytes(c)| <= |s|
    ensures ParseLogin(s, FlagsOf(c), at, at + |LoginBytes(c)|) ==
            if LoginAccepted(c) then Some((OptionalContent(c.username), OptionalContent(c.password))) else None
  {
    hide Flags, FlagPassword, FlagUsername, IntAt, StringAt, Content;
    FlagsRoundTrip(c.cleanSession, c.willFlag, c.will.qos, c.will.retained, Present(c.password), Present(c.username));
    HoldsSplit(s, at, OptionalBytes(c.username), OptionalBytes(c.password));
    var end := at + |LoginBytes(c)|;
    if Present(c.username) {
      StringFound(s, at, c.username, end);
      if Present(c.password) {
        StringFound(s, at + 2 + |Content(c.username)|, c.password, end);
      }
    }
  }

  lemma WillFound(s: seq<byte>, c: Options, at: nat, end: nat)
    requires AllShort(c) && Holds(s, at, WillBytes(c)) && at + |WillBytes(c)| <= end <= |s|
    ensures ParseWill(s, FlagsOf(c), at, end) == Some((Restored(c).will, at + |WillBytes(c)|))
  {
    hide Flags, FlagWill, FlagWillQos, FlagWillRetain, IntAt, StringAt, Content, Present;
    FlagsRoundTrip(c.cleanSession, c.willFlag, c.will.qos, c.will.retained, Present(c.password), Present(c.username));
    if c.willFlag {
      var topic, message := StringBytes(c.will.topic), StringBytes(c.will.message);
      HoldsSplit(s, at, topic, message);
      StringFound(s, at, c.will.topic, end);
      StringFound(s, at + |topic|, c.will.message, end);
    }
  }

  lemma SessionFound(s: seq<byte>, c: Options, at: nat, end: nat)
    requires AllShort(c) && Holds(s, at, SessionBytes(c)) && at + |SessionBytes(c)| <= end <= |s|
    ensures s[at] == FlagsOf(c) && IntAt(s, at + 1) == c.keepAlive
    ensures StringAt(s, at + 3, end) == Some(Content(c.clientId))
  {
    hide FlagsOf, IntAt, StringAt, Content;
    HoldsSplit(s, at, [FlagsOf(c)] + Int16(c.keepAlive), StringBytes(c.clientId));
    HoldsSplit(s, at, [FlagsOf(c)], Int16(c.keepAlive));
    assert s[at] == s[at..at + 1][0];
    IntFound(s, at + 1, c.keepAlive);
    StringFound(s, at + 3, c.clientId, end);
  }

  lemma FieldsFound(s: seq<byte>, c: Options, at: nat)
    requires AllShort(c) && Holds(s, at, SessionBytes(c) + (WillBytes(c) + LoginBytes(c)))
    ensures var end := at + |SessionBytes(c)| + |WillBytes(c)| + |LoginBytes(c)|;
            && at + 3 <= end <= |s|
            && ParseFields(s, at, end) == if LoginAccepted(c) then Some(Restored(c)) else None
  {
    hide SessionBytes, WillBytes, LoginBytes, FlagsOf, IntAt, StringAt, Content, ParseWill, ParseLogin, LoginAccepted,
      AllShort, Present;
    var session, will, login := SessionBytes(c), WillBytes(c), LoginBytes(c);
    var end := at + |session| + |will| + |login|;
    HoldsSplit(s, at, session, will + login);
    HoldsSplit(s, at + |session|, will, login);
    SessionFound(s, c, at, end);
    WillFound(s, c, at + |session|, end);
    LoginFound(s, c, at + |session| + |will|);
    FlagCleanFound(c);
  }

  lemma FlagCleanFound(c: Options)
    ensures FlagClean(FlagsOf(c)) == c.cleanSession
  {
    FlagsRoundTrip(c.cleanSession, c.willFlag, c.will.qos, c.will.retained, Present(c.password), Present(c.username));
  }

  lemma ProtocolFound(s: seq<byte>, c: Options, at: nat, end: nat)
    requires c.version in {3, 4} && Holds(s, at, ProtocolBytes(c)) && at + |ProtocolBytes(c)| <= end <= |s|
    ensures var name := if c.version == 4 then MQTT_NAME else MQISDP_NAME;
            && |ProtocolBytes(c)| == 3 + |name|
            && StringAt(s, at, end) == Some(name) && s[at + 2 + |name|] == c.version
            && CheckVersion(name, s[at + 2 + |name|])
  {
    hide IntAt;
    var name := if c.version == 4 then MQTT_NAME else MQISDP_NAME;
    HoldsSplit(s, at, Int16(|name|) + name, [c.version]);
    HoldsSplit(s, at, Int16(|name|), name);
    IntFound(s, at, |name|);
    assert s[at + 2 + |name|] == s[at + 2 + |name|..at + 3 + |name|][0];
  }

  /** Section 3.1 of MQTT 3.1.1: a serialized CONNECT is accepted exactly when its login is, and then every field
      but the version is restored. */
  lemma RoundTrip(s: seq<byte>, c: Options)
    requires c.version in {3, 4} && AllShort(c) && |Body(c)| <= MAX_REMAINING_LENGTH
    requires Holds(s, 0, Frame(HEADER, Body(c)))
    ensures var len := |Frame(HEADER, Body(c))|;
            && Readable(s, len)
            && Parse(s, len) == if LoginAccepted(c) then Some(Restored(c)) else None
  {
    hide Frame, Holds, ScanLength, HeaderByte, LengthField, ProtocolBytes, SessionBytes, WillBytes, LoginBytes,
      StringAt, IntAt, ParseFields, CheckVersion, LoginAccepted, AllShort, Restored;
    var header := HEADER;
    var n := |LengthField(|Body(c)|)|;
    var end := 1 + n + |Body(c)|;
    HoldsFits(s, 0, Frame(header, Body(c)));
    FrameFound(s, header, Body(c));
    HeaderRoundTrip(CONNECT, false, 0, false);
    HoldsSplit(s, 1 + n, ProtocolBytes(c), SessionBytes(c) + (WillBytes(c) + LoginBytes(c)));
    ProtocolFound(s, c, 1 + n, end);
    FieldsFound(s, c, 1 + n + |ProtocolBytes(c)|);
  }
}
