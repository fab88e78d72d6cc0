/** The persistent records and what each operation of the SD-card store does to them, as values. */
module Store {
  import opened Bytes
  import opened Scan

  const MAXIMUM_CLIENT_ID_LENGTH := 24
  const MAXIMUM_TOPIC_NAME_LENGTH := 255

  type ClientId = s: string | |s| < MAXIMUM_CLIENT_ID_LENGTH
  type TopicName = s: string | |s| < MAXIMUM_TOPIC_NAME_LENGTH

  datatype Status = EMPTY | ACTIVE | ASLEEP | AWAKE | DISCONNECTED | LOST

  /** The awaited message types that occur; NONE is the zeroed record's. */
  datatype Await = NONE | PINGREQ | WILLTOPIC | WILLMSG | REGACK | PUBACK | PUBREL

  /** A row of CLIENTS. The zero address and the empty id mark a deleted row. */
  datatype Client = Client(
    id: ClientId, fileNumber: nat, address: nat, status: Status,
    duration: nat, timeout: nat, awaitId: nat, await: Await)

  const NO_CLIENT := Client("", 0, 0, EMPTY, 0, 0, 0, NONE)

  datatype Registration = Registration(topicId: nat, name: TopicName, known: bool)
  datatype Subscription = Subscription(topicId: nat, qos: nat, name: TopicName)
  datatype Will = Will(topic: string, message: seq<int>, qos: nat, retain: bool)
  datatype Publish = Publish(data: seq<int>, topicId: nat, qos: nat, retain: bool, msgId: nat, publishId: nat)
  datatype GlobalCount = GlobalCount(count: nat, name: TopicName)

  const NO_REGISTRATION := Registration(0, "", false)
  const NO_SUBSCRIPTION := Subscription(0, 0, "")
  const NO_PUBLISH := Publish([], 0, 0, false, 0, 0)
  const NO_COUNT := GlobalCount(0, "")

  /** The four files of one client; a missing file reads as empty. */
  datatype Files = Files(regs: seq<Registration>, subs: seq<Subscription>, will: Option<Will>, queue: seq<Publish>)

  const NO_FILES := Files([], [], None, [])

  /** The whole store: CLIENTS, the clients' files by number, MQTT.SUB, TOPICS.PRE, and the transaction in progress. */
  datatype Db = Db(
    registry: seq<Client>, files: map<nat, Files>, counts: seq<GlobalCount>, predefined: map<nat, TopicName>,
    entry: Client, started: bool, error: bool, missing: bool)

  /** A transaction is open and has met no error. */
  predicate Open(d: Db) { d.started && !d.error }

  /** ... and its client exists. */
  predicate Ready(d: Db) { Open(d) && !d.missing }

  function FilesAt(files: map<nat, Files>, n: nat): Files { if n in files then files[n] else NO_FILES }

  /** The zeroed entry of a missing client names no file. */
  function Mine(d: Db): Files { if d.missing then NO_FILES else FilesAt(d.files, d.entry.fileNumber) }

  function SetMine(d: Db, f: Files): Db { d.(files := d.files[d.entry.fileNumber := f]) }

  function ById(id: string): Client -> bool { (c: Client) => c.id == id }
  function ByAddress(a: nat): Client -> bool { (c: Client) => c.address == a }

  // Transactions

  function StartFound(d: Db, i: nat): Db
    requires i <= |d.registry|
  {
    d.(started := true, error := false, missing := i == |d.registry|,
       entry := if i < |d.registry| then d.registry[i] else NO_CLIENT)
  }

  function StartById(d: Db, id: string): Db {
    if d.started || |id| >= MAXIMUM_CLIENT_ID_LENGTH then d.(error := true)
    else StartFound(d, First(d.registry, ById(id)))
  }

  function StartByAddress(d: Db, address: nat): Db {
    if d.started then d.(error := true) else StartFound(d, First(d.registry, ByAddress(address)))
  }

  /** apply_transaction returns an unsigned byte, so -1 arrives as 255. */
  function ApplyCode(d: Db): nat {
    if !Open(d) then 0 else if d.missing then 255 else 1
  }

  function Apply(d: Db): Db { d.(started := false, error := false, missing := false) }

  // The client registry

  function WriteEntry(d: Db, c: Client): Db {
    d.(entry := c, registry := Write(d.registry, c.fileNumber, c, NO_CLIENT))
  }

  function ResetClient(d: Db, id: string, address: nat, duration: nat): Db {
    if !Ready(d) then d
    else if |id| >= MAXIMUM_CLIENT_ID_LENGTH || d.entry.id != id then d.(error := true)
    else
      var i := First(d.registry, ById(id));
      if i == |d.registry| then d.(entry := NO_CLIENT, error := true, missing := true)
      else
        var c := d.registry[i].(id := id, address := address, status := ACTIVE, duration := duration, timeout := 0,
                                awaitId := 0, await := PINGREQ);
        d.(entry := c, registry := d.registry[i := c])
  }

  predicate IsSubscription(s: Subscription) { s.topicId != 0 }

  function SubscriptionCount(d: Db): nat {
    if Ready(d) then Count(Mine(d).subs, IsSubscription) else 0
  }

  /** Refused while subscriptions are left. The files go by the transaction's entry, the row by the id. */
  function DeleteClient(d: Db, id: string): Db {
    if !Ready(d) then d
    else if |id| >= MAXIMUM_CLIENT_ID_LENGTH || SubscriptionCount(d) > 0 then d.(error := true)
    else
      var i := First(d.registry, ById(id));
      d.(files := d.files - {d.entry.fileNumber}, entry := NO_CLIENT, missing := true,
         registry := if i < |d.registry| then d.registry[i := NO_CLIENT] else d.registry)
  }

  /** The first deleted row, or a new one. Creating a file does not empty one that is there. */
  function AddClient(d: Db, id: string, address: nat, duration: nat): Db {
    if !Open(d) then d
    else if !d.missing || |id| >= MAXIMUM_CLIENT_ID_LENGTH then d.(error := true)
    else
      var n := First(d.registry, ById(""));
      var c := Client(id, n, address, ACTIVE, duration, 0, 0, PINGREQ);
      WriteEntry(d.(files := d.files[n := FilesAt(d.files, n)], missing := false), c)
  }

  function SetStatus(d: Db, status: Status): Db {
    if Ready(d) then WriteEntry(d, d.entry.(status := status)) else d
  }

  function SetTimeout(d: Db, timeout: nat): Db {
    if Ready(d) then WriteEntry(d, d.entry.(timeout := timeout)) else d
  }

  function SetAwait(d: Db, await: Await): Db {
    if Ready(d) then WriteEntry(d, d.entry.(await := await)) else d
  }

  /** set_client_await_msg_id compares where it should assign: the row is rewritten as it was. */
  function SetAwaitId(d: Db, msgId: nat): Db {
    if Ready(d) then WriteEntry(d, d.entry) else d
  }

  function AwaitType(d: Db): Await { if Ready(d) then d.entry.await else PINGREQ }

  function AwaitId(d: Db): nat { if Ready(d) then d.entry.awaitId else 0 }

  // Registrations

  function RegistrationNamed(name: string): Registration -> bool {
    (r: Registration) => r.topicId != 0 && r.name == name
  }

  function RegistrationWithId(id: nat): Registration -> bool { (r: Registration) => r.topicId == id }

  predicate NoRegistration(r: Registration) { r.topicId == 0 && r.name == "" }

  /** add_client_registration: the id stored or found; it stays `before` when nothing is done. */
  function AddRegistration(d: Db, name: TopicName, before: nat): (Db, nat) {
    if !Ready(d) then (d, before)
    else
      var regs := Mine(d).regs;
      var i := First(regs, RegistrationNamed(name));
      if i < |regs| then (d, regs[i].topicId)
      else
        var id := |regs| + 1;
        var place := Place(regs, NoRegistration);
        (SetMine(d, Mine(d).(regs := Write(regs, place, Registration(id, name, true), NO_REGISTRATION))), id)
  }

  function GetTopicName(d: Db, id: nat): Option<TopicName> {
    if !Open(d) || id == 0 then None
    else
      var regs := Mine(d).regs;
      var i := First(regs, RegistrationWithId(id));
      if i < |regs| then Some(regs[i].name) else None
  }

  function PredefinedName(d: Db, id: nat): Option<TopicName> {
    if !d.error && id in d.predefined then Some(d.predefined[id]) else None
  }

  /** is_topic_known falls off its end for an id without a registration; `garbage` is what the caller then sees. */
  function IsTopicKnown(d: Db, id: nat, garbage: bool): (Db, bool) {
    if !Ready(d) then (d, false)
    else if id == 0 then (d.(error := true), false)
    else
      var regs := Mine(d).regs;
      var i := First(regs, RegistrationWithId(id));
      (d, if i < |regs| then regs[i].known else garbage)
  }

  // Subscriptions

  function SubscriptionNamed(name: string): Subscription -> bool { (s: Subscription) => s.name == name }

  function SubscriptionWithId(id: nat): Subscription -> bool { (s: Subscription) => s.topicId == id }

  function SameSubscription(id: nat, name: string): Subscription -> bool {
    (s: Subscription) => s.topicId == id && s.name == name
  }

  predicate NoSubscription(s: Subscription) { s.topicId == 0 && s.name == "" }

  predicate IsSubscribed(d: Db, name: string) {
    Ready(d) && name != "" && First(Mine(d).subs, SubscriptionNamed(name)) < |Mine(d).subs|
  }

  /** get_subscription_qos and get_subscription_topic_id, from the first slot of the name. */
  function SubscriptionQos(d: Db, name: string): int {
    if !Ready(d) || name == "" then 0
    else
      var i := First(Mine(d).subs, SubscriptionNamed(name));
      if i < |Mine(d).subs| then Mine(d).subs[i].qos else -1
  }

  function SubscriptionTopicId(d: Db, name: string): nat {
    if !Ready(d) || name == "" then 0
    else
      var i := First(Mine(d).subs, SubscriptionNamed(name));
      if i < |Mine(d).subs| then Mine(d).subs[i].topicId else 0
  }

  function AddSubscription(d: Db, name: TopicName, id: nat, qos: nat): Db {
    if !Ready(d) || name == "" || id == 0 then d
    else
      var subs := Mine(d).subs;
      if First(subs, SameSubscription(id, name)) < |subs| then d
      else
        var sub := Subscription(id, qos, name);
        SetMine(d, Mine(d).(subs := Write(subs, Place(subs, NoSubscription), sub, NO_SUBSCRIPTION)))
  }

  function NthSubscribedTopicId(d: Db, n: nat): nat {
    if Open(d) && n < |Mine(d).subs| then Mine(d).subs[n].topicId else 0
  }

  /** The first slot with the id is zeroed; it is an error if there is none. */
  function DeleteSubscription(d: Db, id: nat): Db {
    if !Open(d) || id == 0 then d
    else
      var subs := Mine(d).subs;
      var i := First(subs, SubscriptionWithId(id));
      if i == |subs| then d.(error := true) else SetMine(d, Mine(d).(subs := subs[i := NO_SUBSCRIPTION]))
  }

  // MQTT.SUB

  function CountFor(name: string): GlobalCount -> bool { (c: GlobalCount) => c.count != 0 && c.name == name }

  predicate NoCount(c: GlobalCount) { c.count == 0 && c.name == "" }

  function Incremented(counts: seq<GlobalCount>, name: TopicName): seq<GlobalCount> {
    var i := First(counts, CountFor(name));
    if i < |counts| then counts[i := GlobalCount(counts[i].count + 1, counts[i].name)]
    else Write(counts, Place(counts, NoCount), GlobalCount(1, name), NO_COUNT)
  }

  function Decremented(counts: seq<GlobalCount>, name: string): seq<GlobalCount> {
    var i := First(counts, CountFor(name));
    if i == |counts| then counts
    else if counts[i].count == 1 then counts[i := NO_COUNT]
    else counts[i := GlobalCount(counts[i].count - 1, counts[i].name)]
  }

  function CountOf(counts: seq<GlobalCount>, name: string): nat {
    var i := First(counts, CountFor(name));
    if i < |counts| then counts[i].count else 0
  }

  function Increment(d: Db, name: TopicName): Db {
    if d.error || name == "" then d else d.(counts := Incremented(d.counts, name))
  }

  function Decrement(d: Db, name: string): Db {
    if d.error || name == "" then d else d.(counts := Decremented(d.counts, name))
  }

  function GetCount(d: Db, name: string): nat {
    if d.error || name == "" then 0 else CountOf(d.counts, name)
  }

  // Wills

  const NO_WILL := Will("", [], 0, false)

  function MyWill(d: Db): Will { if Mine(d).will.Some? then Mine(d).will.value else NO_WILL }

  function SetWillTopic(d: Db, topic: string, qos: nat, retain: bool): Db {
    if !Ready(d) || |topic| >= MAXIMUM_TOPIC_NAME_LENGTH then d
    else SetMine(d, Mine(d).(will := Some(MyWill(d).(topic := topic, qos := qos, retain := retain))))
  }

  function SetWillMessage(d: Db, message: seq<int>): Db {
    if !Ready(d) then d else SetMine(d, Mine(d).(will := Some(MyWill(d).(message := message))))
  }

  function DeleteWill(d: Db): Db {
    if !Ready(d) then d else SetMine(d, Mine(d).(will := None))
  }

  // The publish queue

  predicate Queued(p: Publish) { p.publishId != 0 }
  predicate NoPublish(p: Publish) { p.publishId == 0 }

  predicate HasPublishes(d: Db) {
    Ready(d) && Last(Mine(d).queue, Queued) >= 0
  }

  function Enqueued(queue: seq<Publish>, data: seq<int>, topicId: nat, retain: bool, qos: nat): seq<Publish> {
    var k := Place(queue, NoPublish);
    Write(queue, k, Publish(data, topicId, qos, retain, 0, k + 1), NO_PUBLISH)
  }

  function AddPublish(d: Db, data: seq<int>, topicId: nat, retain: bool, qos: nat): Db {
    if !Ready(d) then d else SetMine(d, Mine(d).(queue := Enqueued(Mine(d).queue, data, topicId, retain, qos)))
  }

  /** get_next_publish: the last used slot. */
  function NextPublish(queue: seq<Publish>): Publish {
    var i := Last(queue, Queued);
    if i == -1 then NO_PUBLISH else queue[i]
  }

  /** The slot named by a publish id; a slot that carries another id is an error. */
  function SetPublishMsgId(d: Db, publishId: nat, msgId: nat): Db {
    var queue := Mine(d).queue;
    if !Ready(d) || publishId == 0 || publishId > |queue| then d
    else if queue[publishId - 1].publishId != publishId then d.(error := true)
    else SetMine(d, Mine(d).(queue := queue[publishId - 1 := queue[publishId - 1].(msgId := msgId)]))
  }

  function RemovePublish(d: Db, publishId: nat): Db {
    var queue := Mine(d).queue;
    if !Ready(d) || publishId == 0 || publishId > |queue| then d
    else if queue[publishId - 1].publishId != publishId then d.(error := true)
    else SetMine(d, Mine(d).(queue := queue[publishId - 1 := NO_PUBLISH]))
  }

  // Walking the registry

  predicate InUse(c: Client) { c.status != EMPTY }

  /** The address of the last row in use; unchanged when there is none. */
  function LastAddress(d: Db): nat {
    var i := Last(d.registry, InUse);
    if i == -1 then 0 else d.registry[i].address
  }

  /** get_nth_client: a row past the end reads as zeroes. */
  function NthClient(d: Db, n: nat): Client { if n < |d.registry| then d.registry[n] else NO_CLIENT }
}
