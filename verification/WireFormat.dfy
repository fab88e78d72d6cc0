/** What the packets look like on the wire, byte by byte, as MQTT 3.1.1 lays them out. */
module WireFormat {
  import opened Bytes
  import opened RemainingLength
  import opened Packet
  import Publish
  import Subscribe
  import Unsubscribe
  import Suback
  import Connect

  /** The remaining length n (section 2.2.3), up to 268435455: seven bits a byte, the lowest first. */
  lemma LengthOnWire(n: nat, a: nat, b: nat, c: nat)
    requires a == n / 128 && b == a / 128 && c == b / 128 && c < 128
    ensures LengthField(n) ==
            if n < 128 then [n]
            else if a < 128 then [128 + n % 128, a]
            else if b < 128 then [128 + n % 128, 128 + a % 128, b]
            else [128 + n % 128, 128 + a % 128, 128 + b % 128, c]
  {
    hide LengthField;
    FieldStep([], n);
    FieldStep([], a);
    FieldStep([], b);
    FieldStep([], c);
  }

  /** A string with its length before it, the high byte first (section 1.5.3). */
  function Text(bs: seq<byte>): seq<byte> { [|bs| / 256 % 256, |bs| % 256] + bs }

  lemma StringOnWire(m: MqttString)
    ensures StringBytes(m) == Text(Content(m))
  {
    hide Content;
  }

  /** PUBLISH (section 3.3). */
  lemma PublishOnWire(p: Publish.Publish)
    ensures Frame(Publish.Header(p), Publish.Body(p)) ==
            [48 + (if p.dup then 8 else 0) + 2 * p.qos + (if p.retained then 1 else 0)]
            + LengthField(|Publish.Body(p)|)
            + (Text(Content(p.topic)) + (if p.qos > 0 then [p.id / 256 % 256, p.id % 256] else []) + p.payload)
  {
    hide LengthField;
  }

  /** SUBSCRIBE (section 3.8): the reserved bits of the first byte are 0010. */
  lemma SubscribeOnWire(dup: bool, id: nat, filters: seq<MqttString>, qoss: seq<int>)
    requires |filters| == |qoss|
    ensures Frame(Subscribe.Header(dup), Subscribe.Body(id, filters, qoss)) ==
            [130 + if dup then 8 else 0] + LengthField(|Subscribe.Body(id, filters, qoss)|)
            + ([id / 256 % 256, id % 256] + Subscribe.RequestBytes(filters, qoss))
    ensures Subscribe.RequestBytes([], []) == []
  {
    hide LengthField;
  }

  /** Its payload: the entries one after the other, each a filter and its requested QoS. */
  lemma {:induction false} EntriesOnWire(filters: seq<MqttString>, qoss: seq<int>, filter: MqttString, qos: int)
    requires |filters| == |qoss|
    ensures Subscribe.RequestBytes(filters + [filter], qoss + [qos]) ==
            Subscribe.RequestBytes(filters, qoss) + Text(Content(filter)) + [qos % 256]
  {
    hide Text, Content, StringBytes;
    StringOnWire(filter);
    if filters == [] {
      assert [filter][1..] == [] && [qos][1..] == [];
      assert [] + [filter] == [filter] && [] + [qos] == [qos];
    } else {
      EntriesOnWire(filters[1..], qoss[1..], filter, qos);
      assert (filters + [filter])[1..] == filters[1..] + [filter] && (qoss + [qos])[1..] == qoss[1..] + [qos];
    }
  }

  /** UNSUBSCRIBE (section 3.10). */
  lemma UnsubscribeOnWire(dup: bool, id: nat, filters: seq<MqttString>)
    ensures Frame(Unsubscribe.Header(dup), Unsubscribe.Body(id, filters)) ==
            [162 + if dup then 8 else 0] + LengthField(|Unsubscribe.Body(id, filters)|)
            + ([id / 256 % 256, id % 256] + Unsubscribe.FilterBytes(filters))
    ensures Unsubscribe.FilterBytes([]) == []
  {
    hide LengthField;
  }

  lemma {:induction false} FiltersOnWire(filters: seq<MqttString>, filter: MqttString)
    ensures Unsubscribe.FilterBytes(filters + [filter]) == Unsubscribe.FilterBytes(filters) + Text(Content(filter))
  {
    hide Text, Content, StringBytes;
    StringOnWire(filter);
    if filters == [] {
      assert [] + [filter] == [filter] && [filter][1..] == [];
    } else {
      FiltersOnWire(filters[1..], filter);
      assert (filters + [filter])[1..] == filters[1..] + [filter];
    }
  }

  /** SUBACK (section 3.9). */
  lemma SubackOnWire(id: nat, codes: seq<int>)
    ensures Frame(Suback.HEADER, Suback.Body(id, codes)) ==
            [144] + LengthField(2 + |codes|) + ([id / 256 % 256, id % 256] + Suback.CodeBytes(codes))
    ensures forall i | 0 <= i < |codes| :: Suback.CodeBytes(codes)[i] == codes[i] % 256
  {
    hide LengthField, Suback.CodeBytes;
    CodesOnWire(codes);
  }

  lemma CodesOnWire(codes: seq<int>)
    ensures forall i | 0 <= i < |codes| :: Suback.CodeBytes(codes)[i] == codes[i] % 256
  {
  }

  /** CONNECT (section 3.1), with "MQTT" and 4, or "MQIsdp" and 3 as in version 3.1. */
  lemma ConnectOnWire(c: Connect.Options)
    ensures Frame(Connect.HEADER, Connect.Body(c)) ==
            [16] + LengthField(|Connect.Body(c)|)
            + ((if c.version == 4 then [0, 4, 77, 81, 84, 84, 4] else [0, 6, 77, 81, 73, 115, 100, 112, 3])
               + [(if c.cleanSession then 2 else 0)
                  + (if c.willFlag then 4 + 8 * c.will.qos + (if c.will.retained then 32 else 0) else 0)
                  + (if Present(c.password) then 64 else 0) + (if Present(c.username) then 128 else 0)]
               + [c.keepAlive / 256 % 256, c.keepAlive % 256]
               + Text(Content(c.clientId))
               + (if c.willFlag then Text(Content(c.will.topic)) + Text(Content(c.will.message)) else [])
               + (if Present(c.username) then Text(Content(c.username)) else [])
               + (if Present(c.password) then Text(Content(c.password)) else []))
  {
    hide LengthField, Content, Present, Connect.Body;
    ConnectBodyOnWire(c);
  }

  lemma ConnectBodyOnWire(c: Connect.Options)
    ensures Connect.Body(c) ==
            (if c.version == 4 then [0, 4, 77, 81, 84, 84, 4] else [0, 6, 77, 81, 73, 115, 100, 112, 3])
            + [(if c.cleanSession then 2 else 0)
               + (if c.willFlag then 4 + 8 * c.will.qos + (if c.will.retained then 32 else 0) else 0)
               + (if Present(c.password) then 64 else 0) + (if Present(c.username) then 128 else 0)]
            + [c.keepAlive / 256 % 256, c.keepAlive % 256]
            + Text(Content(c.clientId))
            + (if c.willFlag then Text(Content(c.will.topic)) + Text(Content(c.will.message)) else [])
            + (if Present(c.username) then Text(Content(c.username)) else [])
            + (if Present(c.password) then Text(Content(c.password)) else [])
  {
    hide Text, Content, Present, Connect.ProtocolBytes, Connect.SessionBytes, Connect.WillBytes, Connect.LoginBytes;
    var protocol := if c.version == 4 then [0, 4, 77, 81, 84, 84, 4] else [0, 6, 77, 81, 73, 115, 100, 112, 3];
    var flags := [(if c.cleanSession then 2 else 0)
                  + (if c.willFlag then 4 + 8 * c.will.qos + (if c.will.retained then 32 else 0) else 0)
                  + (if Present(c.password) then 64 else 0) + (if Present(c.username) then 128 else 0)];
    var alive, client := [c.keepAlive / 256 % 256, c.keepAlive % 256], Text(Content(c.clientId));
    var will := if c.willFlag then Text(Content(c.will.topic)) + Text(Content(c.will.message)) else [];
    var user := if Present(c.username) then Text(Content(c.username)) else [];
    var password := if Present(c.password) then Text(Content(c.password)) else [];
    ProtocolOnWire(c);
    SessionOnWire(c);
    OptionsOnWire(c);
    assert Connect.Body(c) == protocol + ((flags + alive + client) + (will + (user + password)));
    Regrouped(protocol, flags, alive, client, will, user, password);
  }

  lemma Regrouped(a: seq<byte>, b: seq<byte>, c: seq<byte>, d: seq<byte>, e: seq<byte>, f: seq<byte>, g: seq<byte>)
    ensures a + ((b + c + d) + (e + (f + g))) == a + b + c + d + e + f + g
  {
    assert (b + c + d) + (e + (f + g)) == b + c + d + e + f + g;
    assert a + (b + c + d + e + f + g) == a + b + c + d + e + f + g;
  }

  lemma ProtocolOnWire(c: Connect.Options)
    ensures Connect.ProtocolBytes(c) ==
            if c.version == 4 then [0, 4, 77, 81, 84, 84, 4] else [0, 6, 77, 81, 73, 115, 100, 112, 3]
  {
  }

  lemma SessionOnWire(c: Connect.Options)
    ensures Connect.SessionBytes(c) ==
            [(if c.cleanSession then 2 else 0)
             + (if c.willFlag then 4 + 8 * c.will.qos + (if c.will.retained then 32 else 0) else 0)
             + (if Present(c.password) then 64 else 0) + (if Present(c.username) then 128 else 0)]
            + [c.keepAlive / 256 % 256, c.keepAlive % 256] + Text(Content(c.clientId))
  {
    hide Content, Present;
  }

  lemma OptionsOnWire(c: Connect.Options)
    ensures Connect.WillBytes(c) ==
            if c.willFlag then Text(Content(c.will.topic)) + Text(Content(c.will.message)) else []
    ensures Connect.LoginBytes(c) ==
            (if Present(c.username) then Text(Content(c.username)) else [])
            + (if Present(c.password) then Text(Content(c.password)) else [])
  {
    hide Content, Present;
  }
}
