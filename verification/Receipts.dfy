/** What becomes of the messages a client is to get: over every run without PUBACK, what it has received since its files
    were created is what it was sent with QoS 0 together with what is queued. */
module Receipts {
  import opened Bytes
  import opened Scan
  import opened Store
  import opened Gateway
  import opened Soundness
  import opened Operations
  import opened Unsubscribing
  import opened Conservation
  import opened Effects
  import opened Visits
  import opened Ownership
  import opened Queue
  import opened Draining
  import opened Delivery
  import opened Registrations
  import Stalls

  /** A message without the ids it has in the queue. */
  datatype Message = Message(data: seq<int>, topicId: nat, qos: nat, retain: bool)

  function Plain(p: Publish): Message { Message(p.data, p.topicId, p.qos, p.retain) }

  function Messages(box: seq<Publish>): multiset<Message> {
    if box == [] then multiset{} else multiset{Plain(box[0])} + Messages(box[1..])
  }

  /** The messages queued for the client of a slot. */
  ghost function Waiting(d: Db, n: nat): multiset<Message> { Messages(Outbox(QueueAt(d, n))) }

  lemma MessagesCons(p: Publish, box: seq<Publish>)
    ensures Messages([p] + box) == multiset{Plain(p)} + Messages(box) && Messages([]) == multiset{}
  {
    assert ([p] + box)[1..] == box;
  }

  lemma {:induction false} MessagesConcat(a: seq<Publish>, b: seq<Publish>)
    ensures Messages(a + b) == Messages(a) + Messages(b)
  {
    hide Messages;
    if a == [] {
      assert a + b == b;
      MessagesCons(NO_PUBLISH, []);
    } else {
      var p, rest := a[0], a[1..];
      MessagesConcat(rest, b);
      MessagesCons(p, rest);
      MessagesCons(p, rest + b);
      assert a == [p] + rest && a + b == [p] + (rest + b);
    }
  }

  lemma MessagesOne(p: Publish)
    ensures Messages([p]) == multiset{Plain(p)} && Messages([]) == multiset{}
  {
    MessagesCons(p, []);
    assert [p] + [] == [p];
  }

  /** A message put anywhere into the order of sending. */
  lemma MessagesInserted(box: seq<Publish>, k: nat, p: Publish)
    requires k <= |box|
    ensures Messages(box[..k] + [p] + box[k..]) == Messages(box) + multiset{Plain(p)}
  {
    hide Messages;
    MessagesConcat(box[..k] + [p], box[k..]);
    MessagesConcat(box[..k], [p]);
    MessagesConcat(box[..k], box[k..]);
    MessagesOne(p);
    assert box[..k] + box[k..] == box;
  }

  /** Noting a message id does not change what is queued. */
  lemma NotedMessages(queue: seq<Publish>, k: nat, msgId: nat)
    requires k < |queue| && Queued(queue[k])
    ensures Messages(Outbox(queue[k := queue[k].(msgId := msgId)])) == Messages(Outbox(queue))
  {
    hide Messages, Outbox;
    var p := queue[k].(msgId := msgId);
    var upper, lower := Outbox(queue[k + 1..]), Outbox(queue[..k]);
    RewrittenSlot(queue, k, p);
    MessagesConcat(upper + [p], lower);
    MessagesConcat(upper, [p]);
    MessagesConcat(upper + [queue[k]], lower);
    MessagesConcat(upper, [queue[k]]);
    MessagesOne(p);
    MessagesOne(queue[k]);
  }

  // What a step brings and takes

  /** The message a step brings for the client of a slot. */
  ghost function Arriving(s: Sys, step: Step, n: nat): multiset<Message> {
    if !step.BrokerPublish? then multiset{}
    else
      var d := StartByAddress(s.db, step.address);
      if Ready(d) && d.entry.fileNumber == n && d.entry.status in {ACTIVE, ASLEEP, AWAKE} && IsSubscribed(d, step.topic)
      then
        var sub := Mine(d).subs[First(Mine(d).subs, SubscriptionNamed(step.topic))];
        multiset{Message(Shortened(step.data), sub.topicId, sub.qos, step.retain)}
      else multiset{}
  }

  /** The messages among these events that the client of a slot is sent with QoS 0. */
  ghost function Unconfirmed(events: seq<Event>, n: nat): multiset<Message> {
    if events == [] then multiset{}
    else
      var e := events[|events| - 1];
      Unconfirmed(events[..|events| - 1], n) +
      if e.PublishSent? && e.slot == n && e.publish.qos == 0 then multiset{Plain(e.publish)} else multiset{}
  }

  /** The events a step adds to the log. */
  ghost function Added(s: Sys, step: Step): seq<Event> {
    if |s.log| <= |Do(s, step).log| then Do(s, step).log[|s.log|..] else []
  }

  lemma UnconfirmedSnoc(events: seq<Event>, e: Event, n: nat)
    ensures Unconfirmed([], n) == multiset{}
    ensures Unconfirmed(events + [e], n) ==
            Unconfirmed(events, n) +
            if e.PublishSent? && e.slot == n && e.publish.qos == 0 then multiset{Plain(e.publish)} else multiset{}
  {
    assert (events + [e])[..|events|] == events;
  }

  lemma {:induction false} UnconfirmedConcat(a: seq<Event>, b: seq<Event>, n: nat)
    ensures Unconfirmed(a + b, n) == Unconfirmed(a, n) + Unconfirmed(b, n)
  {
    hide Unconfirmed;
    if b == [] {
      assert a + b == a;
      UnconfirmedSnoc([], RegackTaken(0), n);
    } else {
      var less, e := b[..|b| - 1], b[|b| - 1];
      UnconfirmedConcat(a, less, n);
      UnconfirmedSnoc(less, e, n);
      UnconfirmedSnoc(a + less, e, n);
      assert b == less + [e] && a + b == (a + less) + [e];
    }
  }

  /** The log has grown by events that are no messages to the client of the slot. */
  ghost predicate NoneSent(log: seq<Event>, after: seq<Event>, n: nat) {
    && |log| <= |after| && after[..|log|] == log
    && forall i | |log| <= i < |after| :: !(after[i].PublishSent? && after[i].slot == n)
  }

  lemma {:induction false} NothingUnconfirmed(events: seq<Event>, n: nat)
    requires forall i | 0 <= i < |events| :: !(events[i].PublishSent? && events[i].slot == n)
    ensures Unconfirmed(events, n) == multiset{}
  {
    if events != [] {
      NothingUnconfirmed(events[..|events| - 1], n);
    }
  }

  /** Nothing gets lost or comes twice: what was queued and what arrives is sent or queued afterwards. */
  ghost predicate Settles(s: Sys, t: Sys, n: nat, arriving: multiset<Message>) {
    && Stalls.Extends(s.log, t.log)
    && Waiting(s.db, n) + arriving == Unconfirmed(t.log[|s.log|..], n) + Waiting(t.db, n)
  }

  lemma SettlesChain(s: Sys, t: Sys, u: Sys, n: nat, arriving: multiset<Message>)
    requires Settles(s, t, n, arriving) && Settles(t, u, n, multiset{})
    ensures Settles(s, u, n, arriving)
  {
    hide Waiting, Unconfirmed;
    var first, second := t.log[|s.log|..], u.log[|t.log|..];
    assert u.log[..|s.log|] == u.log[..|t.log|][..|s.log|];
    assert u.log == u.log[..|t.log|] + second;
    assert u.log[|s.log|..] == first + second;
    UnconfirmedConcat(first, second, n);
    assert Waiting(t.db, n) + multiset{} == Waiting(t.db, n);
  }

  lemma QueueUntouched(s: Sys, t: Sys, n: nat)
    requires QueueAt(t.db, n) == QueueAt(s.db, n) && NoneSent(s.log, t.log, n)
    ensures Settles(s, t, n, multiset{})
  {
    hide Unconfirmed, Outbox, Messages;
    NothingUnconfirmed(t.log[|s.log|..], n);
  }

  lemma QuietToNone(log: seq<Event>, after: seq<Event>, n: nat)
    requires Stalls.NothingFor(log, after, n)
    ensures NoneSent(log, after, n)
  {
  }

  // The client's own visits

  lemma SendSettles(s: Sys, n: nat, garbage: bool)
    requires Live(s, n) && QueueOk(FilesAt(s.db.files, n))
    ensures Settles(s, HandlePublishes(s, s.db.registry[n].status, s.db.registry[n].address, garbage), n, multiset{})
  {
    hide Inv, Sound, DistinctAddresses, QueueOk, SendNext, Outbox, NextPublish, Settles;
    var row := s.db.registry[n];
    OwnedDistinct(s.db);
    OwnRow(s, n);
    QueueUntouched(s, s, n);
    if row.status in {AWAKE, ACTIVE} {
      var d := StartByAddress(s.db, row.address);
      QueueUntouched(s, s.(db := Apply(d)), n);
      if d.entry.await == PINGREQ && HasPublishes(d) {
        NextSettles(s, d, row.address, garbage);
      }
    }
  }

  lemma NextSettles(s: Sys, d: Db, address: nat, garbage: bool)
    requires Sound(d) && Ready(d) && SameTables(s.db, d) && QueueOk(Mine(d)) && Outbox(Mine(d).queue) != []
    ensures Settles(s, SendNext(s, d, address, NextPublish(Mine(d).queue), garbage), d.entry.fileNumber, multiset{})
  {
    hide Sound, QueueOk, SendNext, Outbox, NextPublish, Messages, Unconfirmed;
    var n, queue := d.entry.fileNumber, Mine(d).queue;
    var p := NextPublish(queue);
    var msgId := if p.qos == 0 then 0 else NextMsgId(d.entry.awaitId);
    var t := SendNext(s, d, address, p, garbage);
    NextIsSendable(Mine(d), msgId);
    SendNextEffect(s, d, address, garbage);
    UnconfirmedSnoc([], PublishSent(n, address, msgId, p), n);
    assert [] + [PublishSent(n, address, msgId, p)] == [PublishSent(n, address, msgId, p)];
    if p.qos == 0 {
      MessagesCons(p, Outbox(queue[p.publishId - 1 := NO_PUBLISH]));
    } else if p.qos == 1 {
      NotedMessages(queue, p.publishId - 1, msgId);
    }
    if p.qos <= 1 {
      assert t.log[|s.log|..] == [PublishSent(n, address, msgId, p)];
    } else {
      assert t.log[|s.log|..] == [];
    }
  }

  lemma OwnVisitSettles(s: Sys, n: nat, heartbeat: Option<nat>, garbage: bool)
    requires Live(s, n) && QueueOk(FilesAt(s.db.files, n))
    requires n < |Visit(s, n, heartbeat, garbage).db.registry|
    requires Visit(s, n, heartbeat, garbage).db.registry[n].id != ""
    ensures Settles(s, Visit(s, n, heartbeat, garbage), n, multiset{})
  {
    hide Inv, Owned, QueueOk, HandlePublishes, HandleTimeout, Served, Outbox, Settles, NoneSent, OnlyAt, Kept, Visit,
      DistinctAddresses;
    var row := s.db.registry[n];
    var t, u := HandlePublishes(s, row.status, row.address, garbage), Served(s, n, garbage);
    LiveRow(s, n);
    OwnedDistinct(s.db);
    SendSettles(s, n, garbage);
    PingrespIff(s, n, garbage);
    PingSendsNone(t.log, u.log, PingRespSent(n, row.address), n);
    QueueUntouched(t, u, n);
    SettlesChain(s, t, u, n, multiset{});
    VisitIsServed(s, n, heartbeat, garbage);
    if heartbeat.Some? {
      ServedServes(s, n, garbage);
      ServedFacts(s.db, u.db, n);
      HandleTimeoutAt(u, n, row, heartbeat.value);
      var v := HandleTimeout(u, row, heartbeat.value);
      Stalls.TimeoutQuiet(u, row, heartbeat.value, n);
      QuietToNone(u.log, v.log, n);
      QueueUntouched(u, v, n);
      SettlesChain(s, u, v, n, multiset{});
    }
  }

  lemma PingSendsNone(log: seq<Event>, after: seq<Event>, e: Event, n: nat)
    requires (after == log || after == log + [e]) && !e.PublishSent?
    ensures NoneSent(log, after, n)
  {
  }

  // Steps

  lemma VisitSettles(s: Sys, k: nat, heartbeat: Option<nat>, garbage: bool, n: nat)
    requires Inv(s) && Owned(s.db) && QueuesOk(s.db.files) && !Deletes(s, VisitStep(k, heartbeat, garbage), n)
    ensures Settles(s, Visit(s, k, heartbeat, garbage), n, multiset{})
  {
    hide Inv, Owned, Visit, QueueOk, Settles, NoneSent, OnlyAt, Outbox;
    var t := Visit(s, k, heartbeat, garbage);
    if k < |s.db.registry| && s.db.registry[k].id != "" {
      VisitOnly(s, k, heartbeat, garbage);
      OnlyAtSize(s.db, t.db, k);
      if k == n {
        EmptyQueueOk();
        assert QueueOk(FilesAt(s.db.files, n));
        OwnVisitSettles(s, n, heartbeat, garbage);
      } else {
        OtherFiles(s.db, t.db, k, n);
        Stalls.VisitQuiet(s, k, heartbeat, garbage, n);
        QuietToNone(s.log, t.log, n);
        QueueUntouched(s, t, n);
      }
    } else {
      EmptyVisit(s, k, heartbeat, garbage);
      PingSendsNone(s.log, t.log, RegackTaken(0), n);
      QueueUntouched(s, t, n);
    }
  }

  lemma ConnectSettles(s: Sys, id: string, duration: nat, clean: bool, address: nat, n: nat)
    requires Inv(s) && id != "" && address != 0 && !Deletes(s, Connect(id, duration, clean, address), n)
    ensures Settles(s, Gateway.AddClient(s, id, duration, clean, address), n, multiset{})
  {
    hide Inv, Gateway.AddClient, ConnectSlot, Settles, NoneSent, Seat, RowsFor, Outbox;
    ConnectEffect(s, id, duration, clean, address);
    var t := Gateway.AddClient(s, id, duration, clean, address);
    PingSendsNone(s.log, t.log, Connected(ConnectSlot(s.db.registry, id, clean)), n);
    QueueUntouched(s, t, n);
  }

  /** A message from the broker enters the queue of its client. */
  lemma ReceivedSettles(s: Sys, step: Step, n: nat)
    requires Inv(s) && QueuesOk(s.db.files) && step.BrokerPublish? && step.address != 0
    ensures Settles(s, Do(s, step), n, Arriving(s, step, n))
  {
    hide Sound, Enqueued, QueueOk, Outbox, Messages, Unconfirmed, Place;
    var d := StartByAddress(s.db, step.address);
    Opened(s, step.address);
    NothingUnconfirmed([], n);
    assert Do(s, step).log[|s.log|..] == [];
    if Ready(d) && d.entry.status in {ACTIVE, ASLEEP, AWAKE} && IsSubscribed(d, step.topic) {
      var sub := Mine(d).subs[First(Mine(d).subs, SubscriptionNamed(step.topic))];
      EmptyQueueOk();
      assert QueueOk(Mine(d));
      EnqueuedMessages(Mine(d), Shortened(step.data), sub.topicId, step.retain, sub.qos);
    }
  }

  lemma EnqueuedMessages(f: Files, data: seq<int>, topicId: nat, retain: bool, qos: nat)
    requires QueueOk(f)
    ensures Messages(Outbox(Enqueued(f.queue, data, topicId, retain, qos))) ==
            Messages(Outbox(f.queue)) + multiset{Message(data, topicId, qos, retain)}
  {
    hide Outbox, Messages, Enqueued, Place;
    EnqueuedOrder(f.queue, data, topicId, retain, qos);
    MessagesInserted(Outbox(f.queue), Overtaken(f.queue),
                     Publish(data, topicId, qos, retain, 0, Place(f.queue, NoPublish) + 1));
  }

  lemma StepSettles(s: Sys, step: Step, n: nat)
    requires Inv(s) && Owned(s.db) && QueuesOk(s.db.files) && Legal(step) && !step.Puback? && !Deletes(s, step, n)
    ensures Settles(s, Do(s, step), n, Arriving(s, step, n))
  {
    hide Inv, Owned, Gateway.AddClient, Visit, QueuesOk, Settles, Deletes, Kept, NoneSent, QueuesKept;
    match step {
      case Connect(id, duration, clean, address) => ConnectSettles(s, id, duration, clean, address, n);
      case VisitStep(k, heartbeat, garbage) => VisitSettles(s, k, heartbeat, garbage, n);
      case BrokerPublish(_, _, _, _) => ReceivedSettles(s, step, n);
      case _ =>
        QuietQueues(s, step);
        QuietKept(s, step);
        SameQueueAt(s.db, Do(s, step).db, n);
        Stalls.QuietEvents(s, step, n);
        QuietToNone(s.log, Do(s, step).log, n);
        QueueUntouched(s, Do(s, step), n);
    }
  }

  lemma SameQueueAt(d: Db, e: Db, n: nat)
    requires QueuesKept(d, e) && Kept(d, e)
    ensures QueueAt(e, n) == QueueAt(d, n)
  {
  }

  /** With its files a client's queue goes. */
  lemma DeletedWaits(s: Sys, step: Step, n: nat)
    requires Inv(s) && Owned(s.db) && Legal(step) && Deletes(s, step, n)
    ensures Waiting(Do(s, step).db, n) == multiset{}
  {
    hide Inv, Owned, Gateway.AddClient, Visit, OnlyAt;
    match step {
      case Connect(id, duration, clean, address) => ConnectEffect(s, id, duration, clean, address);
      case VisitStep(k, heartbeat, garbage) =>
        VisitOnly(s, k, heartbeat, garbage);
        OnlyAtSize(s.db, Do(s, step).db, k);
      case _ =>
    }
  }

  // Runs

  /** What the client of a slot has received since its files were created: what was queued at the start of the run, if
      they are older, and every message brought since. */
  ghost function Received(s: Sys, steps: seq<Step>, n: nat): multiset<Message> {
    if steps == [] then Waiting(s.db, n)
    else
      var before, step := steps[..|steps| - 1], steps[|steps| - 1];
      var t := Run(s, before);
      if Deletes(t, step, n) then multiset{} else Received(s, before, n) + Arriving(t, step, n)
  }

  /** What it has been sent with QoS 0 since then. */
  ghost function SentSince(s: Sys, steps: seq<Step>, n: nat): multiset<Message> {
    if steps == [] then multiset{}
    else
      var before, step := steps[..|steps| - 1], steps[|steps| - 1];
      var t := Run(s, before);
      if Deletes(t, step, n) then multiset{} else SentSince(s, before, n) + Unconfirmed(Added(t, step), n)
  }

  /** Messages are conserved: over every run without PUBACK, what a client has received since its files were created is
      what it has been sent with QoS 0 and what is queued for it; none is lost, doubled or changed. */
  lemma {:induction false} ReceivedIsSentOrQueued(s: Sys, steps: seq<Step>, n: nat)
    requires Inv(s) && Owned(s.db) && QueuesOk(s.db.files) && NoRegister(s.log)
    requires OwnedRun(s, steps) && forall i | 0 <= i < |steps| :: !steps[i].Puback?
    ensures QueuesOk(Run(s, steps).db.files) && NoRegister(Run(s, steps).log)
    ensures Received(s, steps, n) == SentSince(s, steps, n) + Waiting(Run(s, steps).db, n)
  {
    hide Inv, Owned, Do, MakesHole, OwnAddress, QueuesOk, NoRegister, Waiting, Unconfirmed, Arriving, Deletes;
    if steps != [] {
      var before, step := steps[..|steps| - 1], steps[|steps| - 1];
      var t := Run(s, before);
      ReceivedIsSentOrQueued(s, before, n);
      OwnedRunKeeps(s, before);
      StepQueues(t, step);
      if Deletes(t, step, n) {
        DeletedWaits(t, step, n);
      } else {
        StepSettles(t, step, n);
        SettledSum(SentSince(s, before, n), Waiting(t.db, n), Arriving(t, step, n), Unconfirmed(Added(t, step), n),
                   Waiting(Do(t, step).db, n));
      }
    }
  }

  lemma SettledSum<T>(sent: multiset<T>, waiting: multiset<T>, arriving: multiset<T>, now: multiset<T>,
                      left: multiset<T>)
    requires waiting + arriving == now + left
    ensures (sent + waiting) + arriving == (sent + now) + left
  {
    assert (sent + waiting) + arriving == sent + (waiting + arriving);
  }

  /** From an empty gateway. */
  lemma MessagesAreConserved(s: Sys, steps: seq<Step>, n: nat)
    requires Fresh(s) && OwnedRun(s, steps) && forall i | 0 <= i < |steps| :: !steps[i].Puback?
    ensures Received(s, steps, n) == SentSince(s, steps, n) + Waiting(Run(s, steps).db, n)
    ensures Received(s, [], n) == multiset{}
  {
    hide Inv, Owned, Run, OwnedRun, QueuesOk, NoRegister, SentSince;
    FreshIsSound(s);
    FreshOwned(s);
    FreshQueues(s);
    ReceivedIsSentOrQueued(s, steps, n);
    assert Outbox([]) == [];
  }
}
