/** What each operation of the gateway core does to the store and to the broker, as values, and whole runs of them. */
module Gateway {
  import opened Bytes
  import opened Scan
  import opened Store

  /** What the gateway sends or learns about messages in flight. `slot` is the client's row. */
  datatype Event =
    | Connected(slot: nat)
    | RegisterSent(slot: nat, address: nat, topicId: nat, msgId: nat, name: TopicName)
    | PublishSent(slot: nat, address: nat, msgId: nat, publish: Publish)
    | RegackTaken(slot: nat)
    | PubackArrived(slot: nat)
    | PingRespSent(slot: nat, address: nat)
    | WillPublished(slot: nat, will: Will)

  /** The store, the topics the gateway is subscribed to at the broker, whether the broker is reachable, the log. */
  datatype Sys = Sys(db: Db, broker: set<string>, online: bool, log: seq<Event>)

  // Clients

  /** remove_client_subscriptions with k subscriptions left: the last one is read by index and deleted by its id. */
  function RemoveFrom(s: Sys, k: nat): Sys
    decreases k
  {
    if k == 0 then s
    else
      var id := NthSubscribedTopicId(s.db, k - 1);
      RemoveFrom(RemoveOne(s, id, GetTopicName(s.db, id)), k - 1)
  }

  function RemoveOne(s: Sys, id: nat, name: Option<TopicName>): Sys {
    var deleted := DeleteSubscription(s.db, id);
    match name
    case None => s.(db := deleted)
    case Some(topic) =>
      var decremented := Decrement(deleted, topic);
      s.(db := decremented, broker := if GetCount(decremented, topic) == 0 then s.broker - {topic} else s.broker)
  }

  function RemoveSubscriptions(s: Sys): Sys { RemoveFrom(s, SubscriptionCount(s.db)) }

  /** Deletes the transaction's client with all its subscriptions. */
  function DropClient(s: Sys, id: string): Sys {
    var removed := RemoveSubscriptions(s);
    removed.(db := DeleteClient(removed.db, id))
  }

  function AddClient(s: Sys, id: string, duration: nat, clean: bool, address: nat): Sys {
    if !s.online then s
    else
      var open := s.(db := StartById(s.db, id));
      var added :=
        if !Ready(open.db) then open.(db := Store.AddClient(open.db, id, address, duration * 1000))
        else if !clean then open.(db := ResetClient(open.db, id, address, duration * 1000))
        else
          var dropped := DropClient(open, id);
          dropped.(db := Store.AddClient(dropped.db, id, address, duration * 1000));
      var log := if Ready(added.db) then added.log + [Connected(added.db.entry.fileNumber)] else added.log;
      added.(db := Apply(added.db), log := log)
  }

  /** A transaction by address that changes the store only. */
  function Transaction(s: Sys, address: nat, f: Db -> Db): Sys {
    s.(db := Apply(f(StartByAddress(s.db, address))))
  }

  function AwaitMessage(s: Sys, address: nat, await: Await): Sys {
    Transaction(s, address, (d: Db) => SetAwait(d, await))
  }

  function RemoveWill(s: Sys, address: nat): Sys {
    Transaction(s, address, DeleteWill)
  }

  function AddWillTopic(s: Sys, address: nat, topic: string, retain: bool, qos: nat): Sys {
    if !s.online then s
    else
      Transaction(s, address, (d: Db) =>
        if AwaitType(d) != WILLTOPIC then d else SetWillTopic(d, topic, qos, retain))
  }

  function AddWillMessage(s: Sys, address: nat, message: seq<int>): Sys {
    if !s.online then s
    else Transaction(s, address, (d: Db) => if AwaitType(d) != WILLMSG then d else SetWillMessage(d, message))
  }

  /** set_disconnected and set_awake; set_asleep needs the broker, and its duration is not stored. */
  function SetState(s: Sys, address: nat, status: Status): Sys {
    if status == ASLEEP && !s.online then s
    else Transaction(s, address, (d: Db) => SetStatus(d, status))
  }

  // Topics

  function RegisterTopic(s: Sys, address: nat, name: TopicName): Sys {
    if !s.online then s
    else Transaction(s, address, (d: Db) => Store.AddRegistration(d, name, 0).0)
  }

  /** The topic a SUBSCRIBE means: the store (a predefined topic is registered), its name, its id. */
  function Resolve(d: Db, topicId: nat, shortTopic: bool): (Db, Option<TopicName>, nat) {
    if shortTopic then
      var name := GetTopicName(d, topicId);
      (d, name, if name.Some? then topicId else 0)
    else
      match PredefinedName(d, topicId)
      case None => (d, None, 0)
      case Some(name) =>
        var (registered, id) := Store.AddRegistration(d, name, 0);
        (registered, Some(name), id)
  }

  /** Enters a new subscription and says whether it is the topic's first. */
  function Enter(d: Db, name: TopicName, id: nat, qos: nat): (Db, bool) {
    if IsSubscribed(d, name) then (d, false)
    else
      var counted := Increment(Store.AddSubscription(d, name, id, qos), name);
      (counted, GetCount(counted, name) == 1)
  }

  /** add_subscription; `accepted` is the broker's answer, if it is asked. */
  function AddSubscription(s: Sys, address: nat, topicId: nat, shortTopic: bool, qos: nat, accepted: bool): Sys {
    if !s.online then s
    else
      var open := StartByAddress(s.db, address);
      if !Ready(open) then s.(db := Apply(open))
      else
        var (resolved, name, id) := Resolve(open, topicId, shortTopic);
        match name
        case None => s.(db := Apply(resolved))
        case Some(topic) =>
          var (entered, first) := Enter(resolved, topic, id, if qos >= 1 then 1 else 0);
          var done := Apply(entered);
          if !first then s.(db := done)
          else if accepted then s.(db := done, broker := s.broker + {topic})
          else s.(db := Decrement(done, topic))
  }

  /** delete_subscription, once the topic has a name or none. The test is the wrong way round: nothing is deleted for a
      client that holds the topic. */
  function DeleteTopic(s: Sys, d: Db, name: Option<TopicName>, id: nat): Sys {
    if name.Some? && IsSubscribed(d, name.value) then s.(db := Apply(d))
    else
      var removed := RemoveOne(s.(db := d), id, name);
      removed.(db := Apply(removed.db))
  }

  /** The name an UNSUBSCRIBE by topic id means. */
  function NamedTopic(d: Db, topicId: nat, shortTopic: bool): Option<TopicName> {
    if shortTopic then GetTopicName(d, topicId) else PredefinedName(d, topicId)
  }

  /** UNSUBSCRIBE by topic id. */
  function Unsubscribe(s: Sys, address: nat, topicId: nat, shortTopic: bool): Sys {
    var d := StartByAddress(s.db, address);
    DeleteTopic(s, d, NamedTopic(d, topicId, shortTopic), topicId)
  }

  /** UNSUBSCRIBE by topic name: get_topic_id always answers 0. */
  function UnsubscribeByName(s: Sys, address: nat, name: TopicName): Sys {
    DeleteTopic(s, StartByAddress(s.db, address), Some(name), 0)
  }

  // Messages to clients

  /** notify_regack_arrived: ACCEPTED is 0, REJECTED_CONGESTION is 1. */
  function RegackArrived(s: Sys, address: nat, msgId: nat, code: nat): Sys {
    var d := StartByAddress(s.db, address);
    if AwaitType(d) == REGACK && AwaitId(d) == msgId && code in {0, 1} then
      s.(db := Apply(SetAwait(d, PINGREQ)), log := s.log + [RegackTaken(d.entry.fileNumber)])
    else s.(db := Apply(d))
  }

  /** notify_puback_arrived: its misplaced write leaves `queue` behind; the await type is not touched. */
  function PubackArrives(s: Sys, address: nat, queue: seq<Publish>): Sys {
    var d := StartByAddress(s.db, address);
    if !Ready(d) then s.(db := Apply(d))
    else s.(db := Apply(SetMine(d, Mine(d).(queue := queue))), log := s.log + [PubackArrived(d.entry.fileNumber)])
  }

  /** The payload with its length cast to one byte: all of it up to 255 bytes. */
  function Shortened(data: seq<int>): (kept: seq<int>)
    ensures kept <= data && |kept| == |data| % 256 && (kept == data <==> |data| <= 255)
  {
    data[..|data| % 256]
  }

  /** handle_receive_mqtt_publish_for_client. */
  function ReceivePublish(s: Sys, address: nat, topic: string, data: seq<int>, retain: bool): Sys {
    Transaction(s, address, (d: Db) =>
      if Ready(d) && d.entry.status in {ACTIVE, ASLEEP, AWAKE} && IsSubscribed(d, topic) then
        var sub := Mine(d).subs[First(Mine(d).subs, SubscriptionNamed(topic))];
        AddPublish(d, Shortened(data), sub.topicId, retain, sub.qos)
      else d)
  }

  /** The next message id. The test for the wrap to 0 is made on the wider sum, so it never succeeds. */
  function NextMsgId(id: nat): nat { (id + 1) % 65536 }

  /** handle_client_publishes. */
  function HandlePublishes(s: Sys, status: Status, address: nat, garbage: bool): Sys {
    if status != AWAKE && status != ACTIVE then s
    else
      var d := StartByAddress(s.db, address);
      if AwaitType(d) != PINGREQ || !HasPublishes(d) then s.(db := Apply(d))
      else SendNext(s, d, address, NextPublish(Mine(d).queue), garbage)
  }

  function SendNext(s: Sys, d: Db, address: nat, next: Publish, garbage: bool): Sys {
    var (checked, known) := IsTopicKnown(d, next.topicId, garbage);
    var slot, msgId := checked.entry.fileNumber, NextMsgId(AwaitId(checked));
    if !known then
      match GetTopicName(checked, next.topicId)
      case None => s.(db := Apply(checked))
      case Some(name) =>
        Finish(s, SetAwait(SetAwaitId(checked, msgId), REGACK), RegisterSent(slot, address, next.topicId, msgId, name))
    else if next.qos == 0 then
      Finish(s, RemovePublish(checked, next.publishId), PublishSent(slot, address, 0, next))
    else if next.qos == 1 then
      Finish(s, SetPublishMsgId(SetAwait(SetAwaitId(checked, msgId), PUBACK), next.publishId, msgId),
             PublishSent(slot, address, msgId, next))
    else s.(db := Apply(checked))
  }

  /** The message is sent when the transaction succeeds. */
  function Finish(s: Sys, d: Db, e: Event): Sys {
    s.(db := Apply(d), log := if ApplyCode(d) == 1 then s.log + [e] else s.log)
  }

  /** The rest of a visit: an awake client without messages falls asleep with a PINGRESP. */
  function AnswerPing(s: Sys, status: Status, address: nat): Sys {
    var d := StartByAddress(s.db, address);
    if status == AWAKE && !HasPublishes(d) then
      Finish(s, SetStatus(d, ASLEEP), PingRespSent(d.entry.fileNumber, address))
    else s.(db := Apply(d))
  }

  /** The tolerated silence: 10 percent over a duration above a minute, 50 percent otherwise. */
  function Tolerance(duration: nat): nat {
    if duration > 60000 then duration + duration / 10 else duration + duration / 2
  }

  /** handle_timeout, from the row as it was read before the visit. The sum is a 32-bit one. */
  function HandleTimeout(s: Sys, row: Client, elapsed: nat): Sys {
    if row.status !in {ACTIVE, ASLEEP, AWAKE} then s
    else
      var timeout := (row.timeout + elapsed) % 0x1_0000_0000;
      var timed := SetTimeout(StartByAddress(s.db, row.address), timeout);
      if timeout <= Tolerance(row.duration) then s.(db := Apply(timed))
      else Expire(s.(db := SetStatus(timed, LOST)), row.id)
  }

  /** A lost client with a will is deleted after the will is published; one without stays in the registry. */
  function Expire(s: Sys, id: string): Sys {
    if !Ready(s.db) || Mine(s.db).will.None? then s.(db := Apply(s.db))
    else
      var willed := s.(log := s.log + [WillPublished(s.db.entry.fileNumber, Mine(s.db).will.value)]);
      var dropped := DropClient(willed, id);
      dropped.(db := Apply(dropped.db))
  }

  /** One visit of the loop to row n, with a heartbeat of `elapsed` milliseconds or none. */
  function Visit(s: Sys, n: nat, heartbeat: Option<nat>, garbage: bool): Sys {
    var row := NthClient(s.db, n);
    var served := AnswerPing(HandlePublishes(s, row.status, row.address, garbage), row.status, row.address);
    if heartbeat.None? then served else HandleTimeout(served, row, heartbeat.value)
  }

  // Runs

  /** The core operations a run is made of. */
  datatype Step =
    | Connect(id: string, duration: nat, clean: bool, address: nat)
    | AwaitStep(address: nat, await: Await)
    | WillTopicStep(address: nat, topic: string, retain: bool, qos: nat)
    | WillMessageStep(address: nat, message: seq<int>)
    | RemoveWillStep(address: nat)
    | Register(address: nat, name: TopicName)
    | Subscribe(address: nat, topicId: nat, shortTopic: bool, qos: nat, accepted: bool)
    | UnsubscribeStep(address: nat, topicId: nat, shortTopic: bool)
    | UnsubscribeNameStep(address: nat, name: TopicName)
    | SetStateStep(address: nat, status: Status)
    | Regack(address: nat, msgId: nat, code: nat)
    | Puback(address: nat, queue: seq<Publish>)
    | BrokerPublish(address: nat, topic: string, data: seq<int>, retain: bool)
    | VisitStep(n: nat, heartbeat: Option<nat>, garbage: bool)
    | BrokerLink(online: bool)

  function Do(s: Sys, step: Step): Sys {
    match step
    case Connect(id, duration, clean, address) => AddClient(s, id, duration, clean, address)
    case AwaitStep(address, await) => AwaitMessage(s, address, await)
    case WillTopicStep(address, topic, retain, qos) => AddWillTopic(s, address, topic, retain, qos)
    case WillMessageStep(address, message) => AddWillMessage(s, address, message)
    case RemoveWillStep(address) => RemoveWill(s, address)
    case Register(address, name) => RegisterTopic(s, address, name)
    case Subscribe(address, topicId, shortTopic, qos, accepted) =>
      AddSubscription(s, address, topicId, shortTopic, qos, accepted)
    case UnsubscribeStep(address, topicId, shortTopic) => Unsubscribe(s, address, topicId, shortTopic)
    case UnsubscribeNameStep(address, name) => UnsubscribeByName(s, address, name)
    case SetStateStep(address, status) => SetState(s, address, status)
    case Regack(address, msgId, code) => RegackArrived(s, address, msgId, code)
    case Puback(address, queue) => PubackArrives(s, address, queue)
    case BrokerPublish(address, topic, data, retain) => ReceivePublish(s, address, topic, data, retain)
    case VisitStep(n, heartbeat, garbage) => Visit(s, n, heartbeat, garbage)
    case BrokerLink(online) => s.(online := online)
  }

  /** The hypotheses on the outside world: ids are not empty and addresses not zero, and the message handler
      awaits no PINGREQ or acknowledgement itself. */
  predicate Legal(step: Step) {
    match step
    case Connect(id, duration, _, address) => id != "" && address != 0 && duration <= 65535
    case AwaitStep(address, await) => address != 0 && await in {WILLTOPIC, WILLMSG, PUBREL}
    case SetStateStep(address, status) => address != 0 && status in {DISCONNECTED, ASLEEP, AWAKE}
    case WillTopicStep(address, _, _, _) => address != 0
    case WillMessageStep(address, _) => address != 0
    case RemoveWillStep(address) => address != 0
    case Register(address, _) => address != 0
    case Subscribe(address, _, _, _, _) => address != 0
    case UnsubscribeStep(address, _, _) => address != 0
    case UnsubscribeNameStep(address, _) => address != 0
    case Regack(address, _, _) => address != 0
    case Puback(address, _) => address != 0
    case BrokerPublish(address, _, _, _) => address != 0
    case VisitStep(_, _, _) => true
    case BrokerLink(_) => true
  }

  function Run(s: Sys, steps: seq<Step>): Sys {
    if steps == [] then s else Do(Run(s, steps[..|steps| - 1]), steps[|steps| - 1])
  }

  /** A gateway that has just been set up: no clients, no subscriptions. */
  predicate Fresh(s: Sys) {
    && s.db.registry == [] && s.db.files == map[] && s.db.counts == [] && s.broker == {} && s.log == []
    && !s.db.started && !s.db.error
  }
}
