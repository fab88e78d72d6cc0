/** Delivery from the publish queues: what a visit sends, when a queue is empty, and when a PINGRESP is due. */
module Draining {
  import opened Bytes
  import opened Scan
  import opened Store
  import opened Gateway
  import opened Soundness
  import opened Operations
  import opened Unsubscribing
  import opened Conservation
  import opened Effects
  import opened Visits
  import opened Ownership
  import opened Queue

  /** Slots are in order, and a queued message is on a registered topic. */
  ghost predicate QueueOk(f: Files) {
    SlotsOk(f.queue) && forall i | 0 <= i < |f.queue| && Queued(f.queue[i]) :: 1 <= f.queue[i].topicId <= |f.regs|
  }

  ghost predicate QueuesOk(files: map<nat, Files>) {
    forall n | n in files :: QueueOk(files[n])
  }

  // One transaction

  /** A registered topic is always known: set_topic_known does nothing and a registration is entered as known. */
  lemma RegisteredIsKnown(d: Db, id: nat, garbage: bool)
    requires Ready(d) && RegsOk(Mine(d).regs) && 1 <= id <= |Mine(d).regs|
    ensures IsTopicKnown(d, id, garbage) == (d, true)
  {
    FirstIs(Mine(d).regs, RegistrationWithId(id), id - 1);
  }

  lemma SlotsInOrder(f: Files)
    requires QueueOk(f)
    ensures SlotsOk(f.queue)
  {
  }

  /** A slot may be zeroed, or rewritten under its own id. */
  lemma RewrittenOk(f: Files, k: nat, p: Publish)
    requires QueueOk(f) && k < |f.queue|
    requires p == NO_PUBLISH || (p.publishId == k + 1 && 1 <= p.topicId <= |f.regs|)
    ensures QueueOk(f.(queue := f.queue[k := p]))
  {
  }

  lemma QueuedTopic(f: Files, k: nat)
    requires QueueOk(f) && k < |f.queue| && f.queue[k].publishId == k + 1
    ensures 1 <= f.queue[k].topicId <= |f.regs|
  {
  }

  /** The queued message that is next. */
  lemma NextIsSendable(f: Files, msgId: nat)
    requires QueueOk(f) && Outbox(f.queue) != []
    ensures var p := NextPublish(f.queue);
            && 1 <= p.topicId <= |f.regs| && 1 <= p.publishId <= |f.queue| && f.queue[p.publishId - 1] == p && Queued(p)
            && QueueOk(f.(queue := f.queue[p.publishId - 1 := NO_PUBLISH]))
            && Outbox(f.queue) == [p] + Outbox(f.queue[p.publishId - 1 := NO_PUBLISH])
            && QueueOk(f.(queue := f.queue[p.publishId - 1 := p.(msgId := msgId)]))
  {
    hide QueueOk, SlotsOk, Outbox, NextPublish, Last;
    SlotsInOrder(f);
    RemovedTakesNext(f.queue);
    var p := NextPublish(f.queue);
    QueuedTopic(f, p.publishId - 1);
    RewrittenOk(f, p.publishId - 1, NO_PUBLISH);
    RewrittenOk(f, p.publishId - 1, p.(msgId := msgId));
  }

  /** The files after the next message has been sent. */
  ghost function SentFiles(f: Files, msgId: nat): Files {
    var p := NextPublish(f.queue);
    if p.qos > 1 || !(1 <= p.publishId <= |f.queue|) then f
    else f.(queue := f.queue[p.publishId - 1 := if p.qos == 0 then NO_PUBLISH else p.(msgId := msgId)])
  }

  lemma SentFilesOk(f: Files, msgId: nat)
    requires QueueOk(f) && Outbox(f.queue) != []
    ensures QueueOk(SentFiles(f, msgId))
  {
    hide QueueOk, Outbox, NextPublish;
    NextIsSendable(f, msgId);
  }

  /** An idle client with something queued is sent the next message: a QoS 0 one leaves the queue with it, a QoS 1 one
      stays and its acknowledgement is awaited, a QoS 2 one is not sent at all. */
  lemma SendNextEffect(s: Sys, d: Db, address: nat, garbage: bool)
    requires Sound(d) && Ready(d) && QueueOk(Mine(d)) && Outbox(Mine(d).queue) != []
    ensures var p := NextPublish(Mine(d).queue);
            var t := SendNext(s, d, address, p, garbage);
            var msgId := if p.qos == 0 then 0 else NextMsgId(d.entry.awaitId);
            && t.db.files == (if p.qos <= 1 then d.files[d.entry.fileNumber := SentFiles(Mine(d), msgId)] else d.files)
            && t.db.registry ==
               (if p.qos == 1 then d.registry[d.entry.fileNumber := d.entry.(await := PUBACK)] else d.registry)
            && t.log == (if p.qos <= 1 then s.log + [PublishSent(d.entry.fileNumber, address, msgId, p)] else s.log)
            && d.entry.fileNumber < |d.registry|
  {
    hide Sound, SetAwaitId, SetAwait, RemovePublish, SetPublishMsgId, IsTopicKnown, EntryOk, RowsOk, QueueOk, Outbox;
    NextIsSendable(Mine(d), 0);
    SoundEntry(d);
    SoundMine(d);
    var p := NextPublish(Mine(d).queue);
    RegisteredIsKnown(d, p.topicId, garbage);
    AwaitIdUnchanged(d, NextMsgId(AwaitId(d)));
    RowThere(d);
    if p.qos == 0 {
      Removed(d, p);
    } else if p.qos == 1 {
      Confirmed(d, p, NextMsgId(d.entry.awaitId));
    }
  }

  lemma SoundMine(d: Db)
    requires Sound(d)
    ensures RegsOk(Mine(d).regs)
  {
  }

  lemma RowThere(d: Db)
    requires Sound(d) && Ready(d)
    ensures d.entry.fileNumber < |d.registry|
  {
  }

  lemma Removed(d: Db, p: Publish)
    requires Ready(d) && 1 <= p.publishId <= |Mine(d).queue| && Mine(d).queue[p.publishId - 1] == p
    ensures RemovePublish(d, p.publishId) == SetMine(d, Mine(d).(queue := Mine(d).queue[p.publishId - 1 := NO_PUBLISH]))
  {
  }

  lemma Confirmed(d: Db, p: Publish, msgId: nat)
    requires Sound(d) && Ready(d) && 1 <= p.publishId <= |Mine(d).queue| && Mine(d).queue[p.publishId - 1] == p
    ensures var e := SetPublishMsgId(SetAwait(d, PUBACK), p.publishId, msgId);
            && Ready(e)
            && e.files == d.files[d.entry.fileNumber :=
                                    Mine(d).(queue := Mine(d).queue[p.publishId - 1 := p.(msgId := msgId)])]
            && d.entry.fileNumber < |d.registry|
            && e.registry == d.registry[d.entry.fileNumber := d.entry.(await := PUBACK)]
  {
  }

  // What visits do to the queues

  lemma HandlePublishesQueues(s: Sys, status: Status, address: nat, garbage: bool)
    requires Inv(s) && QueuesOk(s.db.files) && NoRegister(s.log) && (status in {AWAKE, ACTIVE} ==> address != 0)
    ensures var t := HandlePublishes(s, status, address, garbage); QueuesOk(t.db.files) && NoRegister(t.log)
  {
    hide Sound, SendNext, Outbox, QueueOk;
    if status in {AWAKE, ACTIVE} {
      var d := StartByAddress(s.db, address);
      Opened(s, address);
      if AwaitType(d) == PINGREQ && HasPublishes(d) {
        EmptyQueueOk();
        assert QueueOk(Mine(d));
        SendNextEffect(s, d, address, garbage);
        SentFilesOk(Mine(d), NextMsgId(d.entry.awaitId));
        SentFilesOk(Mine(d), 0);
      }
    }
  }

  lemma EmptyQueueOk()
    ensures QueueOk(NO_FILES)
  {
  }

  ghost predicate NoRegister(log: seq<Event>) {
    forall e | e in log :: !e.RegisterSent?
  }

  lemma AnswerPingQueues(s: Sys, status: Status, address: nat)
    requires Inv(s) && (status == AWAKE ==> address != 0)
    ensures var t := AnswerPing(s, status, address);
            t.db.files == s.db.files && (NoRegister(s.log) ==> NoRegister(t.log))
  {
    hide Sound, SetStatus, HasPublishes;
    if status == AWAKE {
      Opened(s, address);
      StatusKeeps(StartByAddress(s.db, address), ASLEEP);
    }
  }

  lemma ExpireQueues(s: Sys, id: ClientId)
    requires Sound(s.db) && id != ""
    ensures var t := Expire(s, id);
            (QueuesOk(s.db.files) ==> QueuesOk(t.db.files)) && (NoRegister(s.log) ==> NoRegister(t.log))
  {
    hide Sound, DropClient, QueueOk;
    if Ready(s.db) && Mine(s.db).will.Some? {
      DropClientKeeps(s.(log := s.log + [WillPublished(s.db.entry.fileNumber, Mine(s.db).will.value)]), id);
    }
  }

  lemma HandleTimeoutQueues(s: Sys, row: Client, elapsed: nat)
    requires Inv(s) && (row.status in {ACTIVE, ASLEEP, AWAKE} ==> row.address != 0 && row.id != "")
    requires QueuesOk(s.db.files) && NoRegister(s.log)
    ensures var t := HandleTimeout(s, row, elapsed); QueuesOk(t.db.files) && NoRegister(t.log)
  {
    hide Inv, Sound, SetTimeout, SetStatus, Expire, Tolerance, QueuesOk;
    if row.status in {ACTIVE, ASLEEP, AWAKE} {
      var timed, lost := TimeoutStates(s, row, elapsed);
      ExpireQueues(s.(db := lost), row.id);
    }
  }

  lemma VisitQueues(s: Sys, n: nat, heartbeat: Option<nat>, garbage: bool)
    requires Inv(s) && QueuesOk(s.db.files) && NoRegister(s.log)
    ensures var t := Visit(s, n, heartbeat, garbage); QueuesOk(t.db.files) && NoRegister(t.log)
  {
    hide Inv, HandlePublishes, AnswerPing, HandleTimeout, RowsOk, QueuesOk, NoRegister;
    var row := NthClient(s.db, n);
    RowsInOrder(s);
    if n < |s.db.registry| && row.status != EMPTY {
      RowInUse(s.db.registry, n);
    }
    HandlePublishesKeeps(s, row.status, row.address, garbage);
    HandlePublishesQueues(s, row.status, row.address, garbage);
    var t := HandlePublishes(s, row.status, row.address, garbage);
    AnswerPingKeeps(t, row.status, row.address);
    AnswerPingQueues(t, row.status, row.address);
    if heartbeat.Some? {
      HandleTimeoutQueues(AnswerPing(t, row.status, row.address), row, heartbeat.value);
    }
  }

  // Runs without PUBACK, whose misplaced write may leave anything behind

  /** Files whose queues are as before and whose registrations have only grown. */
  ghost predicate QueuesKept(d: Db, e: Db) {
    && (forall n | n in e.files :: FilesAt(e.files, n).queue == FilesAt(d.files, n).queue)
    && (forall n | n in e.files :: FilesAt(d.files, n).regs <= FilesAt(e.files, n).regs)
  }

  lemma KeptQueuesOk(d: Db, e: Db)
    requires QueuesOk(d.files) && QueuesKept(d, e)
    ensures QueuesOk(e.files)
  {
    forall n | n in e.files ensures QueueOk(e.files[n]) {
      EmptyQueueOk();
      assert QueueOk(FilesAt(d.files, n));
      assert FilesAt(d.files, n).regs <= FilesAt(e.files, n).regs;
      assert FilesAt(e.files, n).queue == FilesAt(d.files, n).queue;
    }
  }

  lemma ConnectQueues(s: Sys, id: string, duration: nat, clean: bool, address: nat)
    requires Inv(s) && id != "" && address != 0 && QueuesOk(s.db.files) && NoRegister(s.log)
    ensures var t := Gateway.AddClient(s, id, duration, clean, address); QueuesOk(t.db.files) && NoRegister(t.log)
  {
    hide Inv, Gateway.AddClient, Seat, RowsFor, ConnectSlot, QueueOk;
    ConnectEffect(s, id, duration, clean, address);
    EmptyQueueOk();
  }

  ghost predicate SameQueues(d: Db, e: Db) {
    forall n: nat :: FilesAt(e.files, n).queue == FilesAt(d.files, n).queue
  }

  /** Operations that add registrations, subscriptions and wills leave the queues alone. */
  lemma SubscribeQueues(s: Sys, address: nat, topicId: nat, shortTopic: bool, qos: nat, accepted: bool)
    ensures SameQueues(s.db, Gateway.AddSubscription(s, address, topicId, shortTopic, qos, accepted).db)
  {
    hide Resolve, Enter, SameQueues, StartByAddress;
    var open := StartByAddress(s.db, address);
    var (resolved, name, id) := Resolve(open, topicId, shortTopic);
    StartQueues(s.db, address);
    ResolveQueues(open, topicId, shortTopic);
    QueuesFrom(s.db, open, resolved);
    if name.Some? {
      EnterQueues(resolved, name.value, id, if qos >= 1 then 1 else 0);
      QueuesFrom(s.db, resolved, Enter(resolved, name.value, id, if qos >= 1 then 1 else 0).0);
    }
  }

  lemma StartQueues(d: Db, address: nat)
    ensures SameQueues(d, d) && SameQueues(d, StartByAddress(d, address))
  {
  }

  lemma QueuesFrom(d: Db, e: Db, f: Db)
    requires SameQueues(d, e) && SameQueues(e, f)
    ensures SameQueues(d, f)
    ensures forall g: Db | g.files == e.files || g.files == f.files :: SameQueues(d, g)
  {
  }

  lemma ResolveQueues(d: Db, topicId: nat, shortTopic: bool)
    ensures SameQueues(d, Resolve(d, topicId, shortTopic).0)
  {
    hide GetTopicName;
  }

  lemma EnterQueues(d: Db, name: TopicName, id: nat, qos: nat)
    ensures SameQueues(d, Enter(d, name, id, qos).0)
  {
    hide IsSubscribed;
  }

  lemma RegisterQueues(s: Sys, address: nat, name: TopicName)
    ensures forall n: nat :: FilesAt(RegisterTopic(s, address, name).db.files, n).queue == FilesAt(s.db.files, n).queue
  {
  }

  lemma WillQueues(s: Sys, step: Step)
    requires step.WillTopicStep? || step.WillMessageStep? || step.RemoveWillStep?
    ensures forall n: nat :: FilesAt(Do(s, step).db.files, n).queue == FilesAt(s.db.files, n).queue
  {
  }

  lemma RowQueues(s: Sys, step: Step)
    requires step.AwaitStep? || step.SetStateStep? || step.Regack? || step.BrokerLink?
    ensures Do(s, step).db.files == s.db.files
  {
    hide SetStatus, SetAwait;
    if !step.BrokerLink? {
      var d := StartByAddress(s.db, step.address);
      RowFiles(d);
    }
  }

  lemma RowFiles(d: Db)
    ensures forall await :: SetAwait(d, await).files == d.files
    ensures forall status :: SetStatus(d, status).files == d.files
  {
  }

  /** What the broker sends is queued under the subscription's topic id, which is registered. */
  lemma ReceivedQueues(s: Sys, address: nat, topic: string, data: seq<int>, retain: bool)
    requires Inv(s) && address != 0 && QueuesOk(s.db.files)
    ensures QueuesOk(ReceivePublish(s, address, topic, data, retain).db.files)
  {
    hide Sound, Enqueued, QueueOk, SubsOk, RegsOk;
    var d := StartByAddress(s.db, address);
    Opened(s, address);
    if Ready(d) && IsSubscribed(d, topic) {
      var sub := Mine(d).subs[First(Mine(d).subs, SubscriptionNamed(topic))];
      SubscriptionIsRegistered(d, topic);
      EmptyQueueOk();
      assert QueueOk(Mine(d));
      EnqueuedOk(Mine(d), Shortened(data), sub.topicId, retain, sub.qos);
    }
  }

  lemma SubscriptionIsRegistered(d: Db, topic: string)
    requires Sound(d) && IsSubscribed(d, topic)
    ensures 1 <= Mine(d).subs[First(Mine(d).subs, SubscriptionNamed(topic))].topicId <= |Mine(d).regs|
  {
    hide RowsOk, EntryOk, CountsOk;
    MineOk(d);
    assert SubOk(Mine(d).regs, Mine(d).subs[First(Mine(d).subs, SubscriptionNamed(topic))]);
  }

  lemma EnqueuedOk(f: Files, data: seq<int>, topicId: nat, retain: bool, qos: nat)
    requires QueueOk(f) && 1 <= topicId <= |f.regs|
    ensures QueueOk(f.(queue := Enqueued(f.queue, data, topicId, retain, qos)))
  {
    hide Bag;
    EnqueuedKeeps(f.queue, data, topicId, retain, qos);
  }

  lemma StepQueues(s: Sys, step: Step)
    requires Inv(s) && Legal(step) && !step.Puback? && QueuesOk(s.db.files) && NoRegister(s.log)
    ensures QueuesOk(Do(s, step).db.files) && NoRegister(Do(s, step).log)
  {
    hide Inv, Gateway.AddClient, Gateway.AddSubscription, Visit, ReceivePublish, RegisterTopic, AddWillTopic,
      AddWillMessage, RemoveWill, AwaitMessage, SetState, RegackArrived, QueuesOk, QueuesKept;
    match step {
      case Connect(id, duration, clean, address) => ConnectQueues(s, id, duration, clean, address);
      case VisitStep(n, heartbeat, garbage) => VisitQueues(s, n, heartbeat, garbage);
      case BrokerPublish(address, topic, data, retain) =>
        ReceivedQueues(s, address, topic, data, retain);
        QuietLogs(s, step);
      case _ =>
        QuietQueues(s, step);
        KeptQueuesOk(s.db, Do(s, step).db);
        QuietLogs(s, step);
    }
  }

  lemma QuietQueues(s: Sys, step: Step)
    requires Inv(s) && Legal(step) && Quiet(step) && !step.Puback? && !step.BrokerPublish?
    ensures QueuesKept(s.db, Do(s, step).db)
  {
    hide Inv, Gateway.AddSubscription, RegisterTopic, AddWillTopic, AddWillMessage, RemoveWill, AwaitMessage, SetState,
      RegackArrived;
    QuietKept(s, step);
    match step {
      case Subscribe(address, topicId, shortTopic, qos, accepted) =>
        SubscribeQueues(s, address, topicId, shortTopic, qos, accepted);
      case UnsubscribeStep(_, _, _) => UnsubscribeTouches(s, step);
      case UnsubscribeNameStep(_, _) => UnsubscribeTouches(s, step);
      case Register(address, name) => RegisterQueues(s, address, name);
      case WillTopicStep(_, _, _, _) => WillQueues(s, step);
      case WillMessageStep(_, _) => WillQueues(s, step);
      case RemoveWillStep(_) => WillQueues(s, step);
      case _ => RowQueues(s, step);
    }
  }

  lemma QuietLogs(s: Sys, step: Step)
    requires Quiet(step) && !step.Puback?
    ensures Do(s, step).log == s.log || exists n :: Do(s, step).log == s.log + [RegackTaken(n)]
  {
    hide Resolve, Enter;
  }

  /** Over every good run without PUBACK: each queue slot is zeroed or carries its position, every queued message is on
      a topic its client has registered, and the gateway never sends a REGISTER of its own. */
  lemma {:induction false} QueuesStayOk(s: Sys, steps: seq<Step>)
    requires Fresh(s) && GoodRun(s, steps) && forall i | 0 <= i < |steps| :: !steps[i].Puback?
    ensures QueuesOk(Run(s, steps).db.files) && NoRegister(Run(s, steps).log)
  {
    hide Inv, Do, MakesHole, QueuesOk, NoRegister;
    FreshIsSound(s);
    if steps == [] {
      FreshQueues(s);
    } else {
      var before := steps[..|steps| - 1];
      QueuesStayOk(s, before);
      RunKeeps(s, before);
      StepQueues(Run(s, before), steps[|steps| - 1]);
    }
  }

  lemma FreshQueues(s: Sys)
    requires Fresh(s)
    ensures QueuesOk(s.db.files) && NoRegister(s.log)
  {
  }
}
