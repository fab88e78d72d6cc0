/** A client's publish queue is a bag: what goes in comes out once, the last slot first. */
module Queue {
  import opened Scan
  import opened Store

  /** A slot is zeroed, or carries its own position. */
  ghost predicate SlotsOk(queue: seq<Publish>) {
    forall i | 0 <= i < |queue| :: queue[i] == NO_PUBLISH || queue[i].publishId == i + 1
  }

  /** The queued messages in the order in which they are sent. */
  ghost function Outbox(queue: seq<Publish>): (box: seq<Publish>)
    ensures |box| <= |queue|
    ensures box == [] <==> Last(queue, Queued) == -1
    ensures box != [] ==> box[0] == NextPublish(queue)
  {
    if queue == [] then []
    else
      Slot(queue[|queue| - 1]) + Outbox(queue[..|queue| - 1])
  }

  ghost function Slot(p: Publish): seq<Publish> { if Queued(p) then [p] else [] }

  /** The queued messages, counted. */
  ghost function Bag(queue: seq<Publish>): multiset<Publish> { multiset(Outbox(queue)) }

  lemma OutboxSnoc(queue: seq<Publish>, p: Publish)
    ensures Outbox(queue + [p]) == Slot(p) + Outbox(queue)
    ensures Outbox([]) == []
  {
    assert (queue + [p])[..|queue|] == queue;
  }

  /** Later slots are sent first. */
  lemma {:induction false} OutboxConcat(a: seq<Publish>, b: seq<Publish>)
    ensures Outbox(a + b) == Outbox(b) + Outbox(a)
  {
    hide Outbox, Slot;
    if b == [] {
      OutboxSnoc([], NO_PUBLISH);
      assert a + b == a;
    } else {
      var less, last := b[..|b| - 1], b[|b| - 1];
      assert a + b == (a + less) + [last] && b == less + [last];
      calc {
        Outbox(a + b);
        { OutboxSnoc(a + less, last); }
        Slot(last) + Outbox(a + less);
        { OutboxConcat(a, less); }
        Slot(last) + (Outbox(less) + Outbox(a));
        (Slot(last) + Outbox(less)) + Outbox(a);
        { OutboxSnoc(less, last); }
        Outbox(b) + Outbox(a);
      }
    }
  }

  lemma OutboxParts(lower: seq<Publish>, p: Publish, upper: seq<Publish>)
    ensures Outbox(lower + [p] + upper) == Outbox(upper) + Slot(p) + Outbox(lower)
  {
    hide Outbox, Slot;
    OutboxSnoc(lower, p);
    OutboxConcat(lower + [p], upper);
  }

  lemma RewrittenSlot(queue: seq<Publish>, k: nat, p: Publish)
    requires k < |queue|
    ensures Outbox(queue) == Outbox(queue[k + 1..]) + Slot(queue[k]) + Outbox(queue[..k])
    ensures Outbox(queue[k := p]) == Outbox(queue[k + 1..]) + Slot(p) + Outbox(queue[..k])
  {
    hide Outbox, Slot;
    var lower, upper := queue[..k], queue[k + 1..];
    OutboxParts(lower, queue[k], upper);
    OutboxParts(lower, p, upper);
    assert queue == lower + [queue[k]] + upper && queue[k := p] == lower + [p] + upper;
  }

  /** A received message is queued once, under its slot's id, and no other message is touched. */
  lemma EnqueuedKeeps(queue: seq<Publish>, data: seq<int>, topicId: nat, retain: bool, qos: nat)
    requires SlotsOk(queue)
    ensures var after := Enqueued(queue, data, topicId, retain, qos);
            var p := Publish(data, topicId, qos, retain, 0, Place(queue, NoPublish) + 1);
            SlotsOk(after) && Bag(after) == Bag(queue) + multiset{p} && p !in Outbox(queue)
  {
    hide Outbox, Bag, SlotsOk, Place, Write, Queued, Slot;
    var k := Place(queue, NoPublish);
    var p := Publish(data, topicId, qos, retain, 0, k + 1);
    EnqueuedSlots(queue, k, p);
    SlotOf(p);
    if k < |queue| {
      ReplacedBag(queue, k, p);
    } else {
      AppendedBag(queue, p);
    }
    if p in Outbox(queue) {
      QueuedInSlot(queue, p);
    }
  }

  lemma ReplacedBag(queue: seq<Publish>, k: nat, p: Publish)
    requires k < |queue| && !Queued(queue[k]) && Queued(p)
    ensures Bag(queue[k := p]) == Bag(queue) + multiset{p}
  {
    hide Outbox;
    RewrittenSlot(queue, k, p);
    var upper, lower := Outbox(queue[k + 1..]), Outbox(queue[..k]);
    assert upper + [] + lower == upper + lower;
    assert multiset(upper + [p] + lower) == multiset(upper) + multiset{p} + multiset(lower);
  }

  lemma AppendedBag(queue: seq<Publish>, p: Publish)
    requires Queued(p)
    ensures Bag(queue + [p]) == Bag(queue) + multiset{p}
  {
    hide Outbox;
    OutboxSnoc(queue, p);
    assert multiset([p] + Outbox(queue)) == multiset{p} + multiset(Outbox(queue));
  }

  lemma SlotOf(p: Publish)
    ensures Slot(p) == if p.publishId != 0 then [p] else []
    ensures Queued(p) <==> p.publishId != 0
  {
  }

  lemma EnqueuedSlots(queue: seq<Publish>, k: nat, p: Publish)
    requires SlotsOk(queue) && k == Place(queue, NoPublish) && p.publishId == k + 1
    ensures SlotsOk(Write(queue, k, p, NO_PUBLISH)) && (k < |queue| ==> queue[k] != p && !Queued(queue[k]))
    ensures Write(queue, k, p, NO_PUBLISH) == if k < |queue| then queue[k := p] else queue + [p]
  {
  }

  /** A message to be sent is in the slot its id names, and only there. */
  lemma {:induction false} QueuedInSlot(queue: seq<Publish>, p: Publish)
    requires SlotsOk(queue) && p in Outbox(queue)
    ensures 1 <= p.publishId <= |queue| && queue[p.publishId - 1] == p
  {
    hide Outbox, Slot;
    var last := |queue| - 1;
    if queue == [] {
      OutboxSnoc([], p);
    } else {
      assert queue == queue[..last] + [queue[last]];
      OutboxSnoc(queue[..last], queue[last]);
      SlotOf(queue[last]);
      if p !in Slot(queue[last]) {
        QueuedInSlot(queue[..last], p);
      }
    }
  }

  /** The message get_next_publish returns is found under its id, and removing it takes it alone. */
  lemma {:induction false} RemovedTakesNext(queue: seq<Publish>)
    requires SlotsOk(queue) && Outbox(queue) != []
    ensures var p := NextPublish(queue);
            && 1 <= p.publishId <= |queue| && queue[p.publishId - 1] == p
            && SlotsOk(queue[p.publishId - 1 := NO_PUBLISH])
            && Outbox(queue) == [p] + Outbox(queue[p.publishId - 1 := NO_PUBLISH])
  {
    hide Outbox;
    var k := Last(queue, Queued);
    RewrittenSlot(queue, k, NO_PUBLISH);
    assert Last(queue[k + 1..], Queued) == -1;
    assert Outbox(queue[k + 1..]) == [];
  }

  /** Noting the message id a QoS 1 message was sent under leaves it queued and moves nothing. */
  lemma {:induction false} SentStaysQueued(queue: seq<Publish>, k: nat, msgId: nat)
    requires SlotsOk(queue) && k < |queue| && Queued(queue[k])
    ensures var after := queue[k := queue[k].(msgId := msgId)];
            && SlotsOk(after) && |Outbox(after)| == |Outbox(queue)|
            && Bag(after) == Bag(queue) - multiset{queue[k]} + multiset{queue[k].(msgId := msgId)}
  {
    hide Outbox;
    RewrittenSlot(queue, k, queue[k].(msgId := msgId));
  }

  /** How many messages are sent before one that is received now: those in the slots above the last hole. */
  function Overtaken(queue: seq<Publish>): nat {
    var k := Place(queue, NoPublish);
    if k < |queue| then |queue| - 1 - k else 0
  }

  /** The order of sending: a received message takes its place behind exactly the messages above its slot, and the
      others keep theirs. So it is sent first exactly when it is stored in the last slot or appended. */
  lemma EnqueuedOrder(queue: seq<Publish>, data: seq<int>, topicId: nat, retain: bool, qos: nat)
    requires SlotsOk(queue)
    ensures var p := Publish(data, topicId, qos, retain, 0, Place(queue, NoPublish) + 1);
            var box, after := Outbox(queue), Outbox(Enqueued(queue, data, topicId, retain, qos));
            && Overtaken(queue) <= |box|
            && after == box[..Overtaken(queue)] + [p] + box[Overtaken(queue)..]
            && (after[0] == p <==> Place(queue, NoPublish) + 1 >= |queue|)
  {
    hide Outbox, Bag, SlotsOk, Place, Write, Queued, Slot, Enqueued;
    var k := Place(queue, NoPublish);
    EnqueuedKeeps(queue, data, topicId, retain, qos);
    NoHolesAbove(queue);
    EnqueuedAt(queue, k, data, topicId, retain, qos);
    var p := Publish(data, topicId, qos, retain, 0, k + 1);
    SlotOf(p);
    if k < |queue| {
      ReplacedOrder(queue, k, p);
    } else {
      AppendedOrder(queue, p);
    }
  }

  lemma AppendedOrder(queue: seq<Publish>, p: Publish)
    requires Queued(p)
    ensures Outbox(queue + [p]) == Outbox(queue)[..0] + [p] + Outbox(queue)[0..]
  {
    hide Outbox;
    OutboxSnoc(queue, p);
    assert Outbox(queue)[..0] + [p] + Outbox(queue)[0..] == [p] + Outbox(queue);
  }

  lemma NoHolesAbove(queue: seq<Publish>)
    ensures Filling(queue, Place(queue, NoPublish))
  {
    var i := Last(queue, NoPublish);
    assert i >= 0 ==> NoPublish(queue[i]);
  }

  /** The last hole of the queue, or its end if it has none. */
  ghost predicate Filling(queue: seq<Publish>, k: nat) {
    && k <= |queue| && (k < |queue| ==> !Queued(queue[k]))
    && (forall i | k < i < |queue| :: Queued(queue[i]))
    && (k == |queue| ==> forall i | 0 <= i < |queue| :: Queued(queue[i]))
  }

  /** A message is stored there. */
  lemma EnqueuedAt(queue: seq<Publish>, k: nat, data: seq<int>, topicId: nat, retain: bool, qos: nat)
    requires Filling(queue, k)
    ensures Place(queue, NoPublish) == k
    ensures var p := Publish(data, topicId, qos, retain, 0, k + 1);
            Enqueued(queue, data, topicId, retain, qos) == if k < |queue| then queue[k := p] else queue + [p]
  {
    hide Last;
    LastIs(queue, k);
  }

  lemma LastIs(queue: seq<Publish>, k: nat)
    requires Filling(queue, k)
    ensures Place(queue, NoPublish) == k
  {
    var i := Last(queue, NoPublish);
    assert i >= 0 ==> NoPublish(queue[i]);
    assert k < |queue| ==> NoPublish(queue[k]);
  }

  /** A message in a hole that no other hole lies above. */
  lemma ReplacedOrder(queue: seq<Publish>, k: nat, p: Publish)
    requires k < |queue| && !Queued(queue[k]) && Queued(p) && forall i | k < i < |queue| :: Queued(queue[i])
    requires p !in Outbox(queue)
    ensures var n, box := |queue| - 1 - k, Outbox(queue);
            && n <= |box| && Outbox(queue[k := p]) == box[..n] + [p] + box[n..]
            && (Outbox(queue[k := p])[0] == p <==> n == 0)
  {
    hide Outbox;
    var upper, lower := Outbox(queue[k + 1..]), Outbox(queue[..k]);
    RewrittenSlot(queue, k, p);
    AllQueued(queue[k + 1..]);
    assert Outbox(queue) == upper + lower;
    assert upper == Outbox(queue)[..|upper|] && lower == Outbox(queue)[|upper|..];
    if upper != [] {
      assert upper[0] in Outbox(queue);
    }
  }

  lemma {:induction false} AllQueued(queue: seq<Publish>)
    ensures (forall i | 0 <= i < |queue| :: Queued(queue[i])) ==> |Outbox(queue)| == |queue|
  {
    if queue != [] {
      AllQueued(queue[..|queue| - 1]);
    }
  }

  lemma FullIsAppended(queue: seq<Publish>, data: seq<int>, topicId: nat, retain: bool, qos: nat)
    requires forall i | 0 <= i < |queue| :: Queued(queue[i])
    ensures Enqueued(queue, data, topicId, retain, qos) ==
            queue + [Publish(data, topicId, qos, retain, 0, |queue| + 1)]
  {
    hide Enqueued, Last;
    EnqueuedAt(queue, |queue|, data, topicId, retain, qos);
  }

  /** Neither order of arrival is kept in general: appended messages are sent last in, first out ... */
  lemma AppendedAreReversed(a: seq<int>, b: seq<int>, topicId: nat, retain: bool, qos: nat)
    ensures Outbox(Enqueued(Enqueued([], a, topicId, retain, qos), b, topicId, retain, qos)) ==
            [Publish(b, topicId, qos, retain, 0, 2), Publish(a, topicId, qos, retain, 0, 1)]
  {
    hide Outbox, Enqueued;
    var p, q := Publish(a, topicId, qos, retain, 0, 1), Publish(b, topicId, qos, retain, 0, 2);
    var none: seq<Publish> := [];
    FullIsAppended(none, a, topicId, retain, qos);
    assert none + [p] == [p];
    FullIsAppended([p], b, topicId, retain, qos);
    assert [p] + [q] == [p, q];
    TwoSlots(p, q);
  }

  /** ... and messages that fill the two slots of a drained queue first in, first out. */
  lemma ReusedAreInOrder(a: seq<int>, b: seq<int>, topicId: nat, retain: bool, qos: nat)
    ensures var drained := [NO_PUBLISH, NO_PUBLISH];
            Outbox(Enqueued(Enqueued(drained, a, topicId, retain, qos), b, topicId, retain, qos)) ==
            [Publish(a, topicId, qos, retain, 0, 2), Publish(b, topicId, qos, retain, 0, 1)]
  {
    hide Outbox, Place, Write, Enqueued;
    var p, q := Publish(a, topicId, qos, retain, 0, 2), Publish(b, topicId, qos, retain, 0, 1);
    EnqueuedAt([NO_PUBLISH, NO_PUBLISH], 1, a, topicId, retain, qos);
    assert [NO_PUBLISH, NO_PUBLISH][1 := p] == [NO_PUBLISH, p];
    EnqueuedAt([NO_PUBLISH, p], 0, b, topicId, retain, qos);
    assert [NO_PUBLISH, p][0 := q] == [q, p];
    TwoSlots(q, p);
  }

  lemma TwoSlots(p: Publish, q: Publish)
    requires Queued(p) && Queued(q)
    ensures Outbox([p, q]) == [q, p]
  {
    OutboxSnoc([], p);
    OutboxSnoc([p], q);
    assert [] + [p] == [p] && [p] + [q] == [p, q];
  }
}
