/** From SUBSCRIBE to delivery: a granted client holds the topic, and what the broker sends on it reaches the client
    under the topic id it knows. */
module Subscriptions {
  import opened Bytes
  import opened Scan
  import opened Store
  import opened Gateway
  import opened Soundness
  import opened Operations
  import opened Conservation
  import opened Effects
  import opened Visits
  import opened Ownership
  import opened Registrations
  import opened Core
  import opened Queue
  import opened Draining
  import opened Delivery

  /** The topic a SUBSCRIBE of the client of slot n names: by the id of a topic the client has registered, or by that of
      a predefined one. */
  ghost function Meant(s: Sys, n: nat, topicId: nat, shortTopic: bool): Option<TopicName> {
    var regs := FilesAt(s.db.files, n).regs;
    if shortTopic then if 1 <= topicId <= |regs| then Some(regs[topicId - 1].name) else None
    else if topicId in s.db.predefined then Some(s.db.predefined[topicId])
    else None
  }

  /** The broker is asked for a topic that has a name, that the client does not hold yet and that has no count. */
  ghost predicate Asked(s: Sys, n: nat, name: string) {
    name != "" && !HoldsTopic(FilesAt(s.db.files, n).subs, name) && CountOf(s.db.counts, name) == 0
  }

  /** A SUBSCRIBE is granted if it comes from a known client and names a topic, and the broker, if asked, accepts. */
  ghost predicate Grants(s: Sys, address: nat, topicId: nat, shortTopic: bool, accepted: bool) {
    var d := StartByAddress(s.db, address);
    && s.online && Ready(d)
    && var name := Meant(s, d.entry.fileNumber, topicId, shortTopic);
       name.Some? && (Asked(s, d.entry.fileNumber, name.value) ==> accepted)
  }

  /** The topic id names the topic to the client of slot n, and is that of its subscription. */
  ghost predicate Holding(s: Sys, n: nat, name: TopicName, topicId: nat) {
    var f := FilesAt(s.db.files, n);
    && 1 <= topicId <= |f.regs| && f.regs[topicId - 1].name == name
    && (name != "" ==> exists i :: 0 <= i < |f.subs| && f.subs[i].name == name && f.subs[i].topicId == topicId)
  }

  /** Looking a topic up finds what the SUBSCRIBE names, and an id for it. */
  lemma ResolveMeans(s: Sys, address: nat, topicId: nat, shortTopic: bool)
    requires Inv(s) && address != 0 && Ready(StartByAddress(s.db, address))
    ensures var d := StartByAddress(s.db, address);
            var (resolved, name, id) := Resolve(d, topicId, shortTopic);
            && name == Meant(s, d.entry.fileNumber, topicId, shortTopic)
            && (name.Some? ==> 1 <= id <= |Mine(resolved).regs| && Mine(resolved).regs[id - 1].name == name.value)
            && (name.Some? && shortTopic ==> id == topicId)
  {
    hide Sound, Store.AddRegistration, GetTopicName;
    var d := StartByAddress(s.db, address);
    Opened(s, address);
    SoundEntry(d);
    FileRegsOk(d, d.entry.fileNumber);
    ResolveKeeps(d, topicId, shortTopic);
    TopicNameFound(d, topicId);
  }

  lemma AskedIff(s: Sys, address: nat, topicId: nat, shortTopic: bool)
    requires Inv(s) && address != 0
    ensures var d := StartByAddress(s.db, address);
            AsksBroker(s, address, topicId, shortTopic) <==>
            && s.online && Ready(d)
            && var name := Meant(s, d.entry.fileNumber, topicId, shortTopic);
               name.Some? && Asked(s, d.entry.fileNumber, name.value)
  {
    hide Inv, Sound, Resolve, Enter, HoldsTopic, CountOf, Meant;
    var d := StartByAddress(s.db, address);
    Opened(s, address);
    if s.online && Ready(d) {
      ResolveMeans(s, address, topicId, shortTopic);
      ResolveKeeps(d, topicId, shortTopic);
      var (resolved, name, id) := Resolve(d, topicId, shortTopic);
      if name.Some? {
        EnterKeeps(resolved, name.value, id, 0);
      }
    }
  }

  /** What add_subscription grants. */
  lemma GrantedIff(s: Sys, address: nat, topicId: nat, shortTopic: bool, accepted: bool)
    requires Inv(s) && address != 0
    ensures Granted(s, address, topicId, shortTopic, accepted) <==> Grants(s, address, topicId, shortTopic, accepted)
  {
    hide Inv, Resolve, Meant, Asked, AsksBroker, StartByAddress;
    AskedIff(s, address, topicId, shortTopic);
    if Ready(StartByAddress(s.db, address)) {
      ResolveMeans(s, address, topicId, shortTopic);
    }
  }

  /** A granted SUBSCRIBE leaves its client holding exactly the topic it named, under the id that is answered, which is
      the requested one for a registered topic; with a QoS of at most 1 if the subscription is new; and the gateway is
      subscribed to the topic at the broker if the broker was asked, or if all counts are right. */
  lemma GrantedIsHeld(s: Sys, address: nat, topicId: nat, shortTopic: bool, qos: nat, accepted: bool)
    requires Inv(s) && address != 0 && Grants(s, address, topicId, shortTopic, accepted)
    ensures var d := StartByAddress(s.db, address);
            var n := d.entry.fileNumber;
            var name, subs := Meant(s, n, topicId, shortTopic).value, FilesAt(s.db.files, n).subs;
            var t := Gateway.AddSubscription(s, address, topicId, shortTopic, qos, accepted);
            var id := Resolve(d, topicId, shortTopic).2;
            && Inv(t) && Holding(t, n, name, id) && (shortTopic ==> id == topicId)
            && FilesAt(t.db.files, n).subs ==
               (if name == "" || HoldsTopic(subs, name) then subs
                else subs + [Subscription(id, if qos >= 1 then 1 else 0, name)])
            && (name != "" && (Balanced(s) || Asked(s, n, name)) ==> name in t.broker)
  {
    hide Inv, Sound, Resolve, Enter, HoldsTopic, CountOf, Conserved, BrokerOk, AtMost, BrokerCounted, Meant, Holding;
    var d := StartByAddress(s.db, address);
    Opened(s, address);
    AskedIff(s, address, topicId, shortTopic);
    ResolveMeans(s, address, topicId, shortTopic);
    SubscribeKeepsIffAccepted(s, address, topicId, shortTopic, qos, accepted);
    ResolveKeeps(d, topicId, shortTopic);
    var (resolved, name, id) := Resolve(d, topicId, shortTopic);
    EnterKeeps(resolved, name.value, id, if qos >= 1 then 1 else 0);
    FirstIgnoresQos(resolved, name.value, id, if qos >= 1 then 1 else 0);
    var t := Gateway.AddSubscription(s, address, topicId, shortTopic, qos, accepted);
    IsHolding(t, d.entry.fileNumber, name.value, id);
    if name.value != "" && Balanced(s) {
      HeldIsCounted(t, d.entry.fileNumber, name.value);
    }
  }

  /** Names are distinct, so the subscription to a topic is under the id that names it. */
  lemma IsHolding(t: Sys, n: nat, name: TopicName, id: nat)
    requires Inv(t)
    requires var f := FilesAt(t.db.files, n);
             && 1 <= id <= |f.regs| && f.regs[id - 1].name == name
             && (name != "" ==> HoldsTopic(f.subs, name))
    ensures Holding(t, n, name, id)
  {
    hide RowsOk, EntryOk, CountsOk;
    var f := FilesAt(t.db.files, n);
    if name != "" {
      var i :| 0 <= i < |f.subs| && f.subs[i].name == name;
      assert FileOk(f);
      assert SubOk(f.regs, f.subs[i]);
    }
  }

  lemma HeldIsCounted(s: Sys, n: nat, topic: string)
    requires Balanced(s) && HoldsTopic(FilesAt(s.db.files, n).subs, topic)
    ensures topic in s.broker
  {
    HoldersUpdate(s.db.files, n, FilesAt(s.db.files, n), topic);
    assert n in Holders(s.db.files, topic);
    assert CountOf(s.db.counts, topic) == |Holders(s.db.files, topic)| > 0;
  }

  /** A live client that is to be sent messages on the topic. */
  ghost predicate Listens(s: Sys, n: nat, topic: string) {
    && Live(s, n) && s.db.registry[n].status in {ACTIVE, ASLEEP, AWAKE}
    && HoldsTopic(FilesAt(s.db.files, n).subs, topic)
  }

  /** A subscription's topic id names its topic. */
  lemma SubscriptionNames(d: Db, topic: string)
    requires Sound(d) && IsSubscribed(d, topic)
    ensures var sub := Mine(d).subs[First(Mine(d).subs, SubscriptionNamed(topic))];
            1 <= sub.topicId <= |Mine(d).regs| && Mine(d).regs[sub.topicId - 1].name == topic
  {
    hide RowsOk, EntryOk, CountsOk;
    MineOk(d);
    assert SubOk(Mine(d).regs, Mine(d).subs[First(Mine(d).subs, SubscriptionNamed(topic))]);
  }

  /** The record a received message becomes: under the subscription's id and QoS, in the slot it is stored in. */
  ghost function Received(d: Db, n: nat, topic: string, data: seq<int>, retain: bool): Publish
    requires HoldsTopic(FilesAt(d.files, n).subs, topic)
  {
    var f := FilesAt(d.files, n);
    var sub := f.subs[First(f.subs, SubscriptionNamed(topic))];
    Publish(Shortened(data), sub.topicId, sub.qos, retain, 0, Place(f.queue, NoPublish) + 1)
  }

  /** A message from the broker is queued exactly for a client that listens on its topic: once, with its
      shortened payload and its retain flag, under the id that names the topic to the client; no other client's files
      are touched. */
  lemma ReceivedIsQueued(s: Sys, n: nat, topic: string, data: seq<int>, retain: bool)
    requires Live(s, n) && SlotsOk(QueueAt(s.db, n))
    ensures var t := ReceivePublish(s, s.db.registry[n].address, topic, data, retain);
            && t.db.registry == s.db.registry && t.log == s.log
            && (forall m: nat | m != n :: FilesAt(t.db.files, m) == FilesAt(s.db.files, m))
            && FilesAt(t.db.files, n) == FilesAt(s.db.files, n).(queue := QueueAt(t.db, n))
            && (if Listens(s, n, topic) then
                  && SlotsOk(QueueAt(t.db, n))
                  && var p := Received(s.db, n, topic, data, retain);
                     && Bag(QueueAt(t.db, n)) == Bag(QueueAt(s.db, n)) + multiset{p}
                     && NameOf(s.db, n, p.topicId) == Some(topic)
                else QueueAt(t.db, n) == QueueAt(s.db, n))
  {
    hide Inv, Owned, ReceivePublish, Enqueued, Bag, HoldsTopic, GetTopicName, SlotsOk, Place, Listens;
    ReceivedEffect(s, n, topic, data, retain);
    if Listens(s, n, topic) {
      ListensTo(s, n, topic);
      var p := Received(s.db, n, topic, data, retain);
      EnqueuedKeeps(QueueAt(s.db, n), p.data, p.topicId, retain, p.qos);
      NameIsRegistered(s, n, p.topicId);
    }
  }

  lemma ReceivedEffect(s: Sys, n: nat, topic: string, data: seq<int>, retain: bool)
    requires Live(s, n)
    ensures var t := ReceivePublish(s, s.db.registry[n].address, topic, data, retain);
            && t.db.registry == s.db.registry && t.log == s.log
            && t.db.files ==
               if Listens(s, n, topic) then
                 var f, p := FilesAt(s.db.files, n), Received(s.db, n, topic, data, retain);
                 s.db.files[n := f.(queue := Enqueued(f.queue, p.data, p.topicId, retain, p.qos))]
               else s.db.files
  {
    hide Inv, Sound, DistinctAddresses, Enqueued, HoldsTopic, IsSubscribed, Place;
    OwnedDistinct(s.db);
    OwnRow(s, n);
    SubscribedIsHeld(StartByAddress(s.db, s.db.registry[n].address), topic);
  }

  lemma ListensTo(s: Sys, n: nat, topic: string)
    requires Listens(s, n, topic)
    ensures HoldsTopic(FilesAt(s.db.files, n).subs, topic)
    ensures var f := FilesAt(s.db.files, n);
            var i := First(f.subs, SubscriptionNamed(topic));
            i < |f.subs| && 1 <= f.subs[i].topicId <= |f.regs| && f.regs[f.subs[i].topicId - 1].name == topic
  {
    hide Inv, Sound, DistinctAddresses, HoldsTopic;
    OwnedDistinct(s.db);
    OwnRow(s, n);
    SubscribedIsHeld(StartByAddress(s.db, s.db.registry[n].address), topic);
    SubscriptionNames(StartByAddress(s.db, s.db.registry[n].address), topic);
  }

  /** A client whose files alone have changed, with queue and registrations in order, can still be served. */
  lemma StillDrainable(s: Sys, n: nat, topic: string, data: seq<int>, retain: bool)
    requires Listens(s, n, topic) && s.db.registry[n].status == ACTIVE && s.db.registry[n].await == PINGREQ
    requires QueueOk(FilesAt(s.db.files, n)) && Outbox(QueueAt(s.db, n)) == []
    requires Received(s.db, n, topic, data, retain).qos == 0
    ensures var t := ReceivePublish(s, s.db.registry[n].address, topic, data, retain);
            Drainable(t, n) && Outbox(QueueAt(t.db, n)) == [Received(s.db, n, topic, data, retain)]
  {
    hide Inv, Owned, Do, ReceivePublish, Outbox, HoldsTopic, Received, SlotsOk;
    var address := s.db.registry[n].address;
    var t := ReceivePublish(s, address, topic, data, retain);
    ReceivedIsQueued(s, n, topic, data, retain);
    LiveRow(s, n);
    ReceivePublishKeeps(s, address, topic, data, retain);
    ReceivedOwned(s, address, topic, data, retain);
    OneInBag(QueueAt(t.db, n), Received(s.db, n, topic, data, retain));
    NameIsRegistered(s, n, Received(s.db, n, topic, data, retain).topicId);
    AllOnTopic(QueueAt(t.db, n), Received(s.db, n, topic, data, retain));
  }

  lemma ReceivedOwned(s: Sys, address: nat, topic: string, data: seq<int>, retain: bool)
    requires Inv(s) && Owned(s.db) && address != 0
    ensures Owned(ReceivePublish(s, address, topic, data, retain).db)
  {
    hide Inv, Owned, ReceivePublish;
    OwnedStep(s, BrokerPublish(address, topic, data, retain));
  }

  lemma OneInBag(queue: seq<Publish>, p: Publish)
    requires Bag(queue) == multiset{p}
    ensures Outbox(queue) == [p]
  {
    hide Outbox;
    var box := Outbox(queue);
    assert |box| == |multiset(box)| == 1;
    assert box[0] in multiset(box);
  }

  /** Every used slot holds the one message there is. */
  lemma {:induction false} AllOnTopic(queue: seq<Publish>, p: Publish)
    requires forall q | q in Outbox(queue) :: q == p
    ensures forall i | 0 <= i < |queue| && Queued(queue[i]) :: queue[i] == p
  {
    hide Outbox;
    if queue != [] {
      var less, last := queue[..|queue| - 1], queue[|queue| - 1];
      assert queue == less + [last];
      OutboxSnoc(less, last);
      assert forall q | q in Outbox(less) :: q in Outbox(queue);
      AllOnTopic(less, p);
      forall i | 0 <= i < |queue| && Queued(queue[i]) ensures queue[i] == p {
        if i == |less| {
          assert Outbox(queue)[0] == last && last in Outbox(queue);
        } else {
          assert queue[i] == less[i];
        }
      }
    }
  }

  /** An idle active client with an empty queue that listens on a topic with QoS 0 gets the broker's message at the next
      visit: exactly once, under the id it registered the topic with, and unaltered if and only if its payload has at
      most 255 bytes. */
  lemma ListenerIsServed(s: Sys, n: nat, topic: string, data: seq<int>, retain: bool, garbage: bool)
    requires Listens(s, n, topic) && s.db.registry[n].status == ACTIVE && s.db.registry[n].await == PINGREQ
    requires QueueOk(FilesAt(s.db.files, n)) && Outbox(QueueAt(s.db, n)) == []
    requires Received(s.db, n, topic, data, retain).qos == 0
    ensures var p, address := Received(s.db, n, topic, data, retain), s.db.registry[n].address;
            var t := Visit(ReceivePublish(s, address, topic, data, retain), n, None, garbage);
            && t.log == s.log + [PublishSent(n, address, 0, p)] && Outbox(QueueAt(t.db, n)) == []
            && (p.data == data <==> |data| <= 255) && p.retain == retain && NameOf(s.db, n, p.topicId) == Some(topic)
  {
    hide Inv, Owned, Visit, ReceivePublish, Outbox, QueueOk, GetTopicName, HoldsTopic, Place;
    SlotsInOrder(FilesAt(s.db.files, n));
    ReceivedIsQueued(s, n, topic, data, retain);
    StillDrainable(s, n, topic, data, retain);
    OneVisit(ReceivePublish(s, s.db.registry[n].address, topic, data, retain), n, garbage);
  }
}
