/** What becomes of a client's will: it is published exactly when its client is lost, as it was stored, and once. */
module LostClients {
  import opened Bytes
  import opened Store
  import opened Gateway
  import opened Soundness
  import opened Unsubscribing
  import opened Effects
  import opened Visits
  import opened Ownership
  import opened Queue
  import opened Draining
  import opened Delivery
  import opened Timeouts
  import Handlers
  import Interleaving
  import Wills

  /** The wills published for the client of a slot, in order. */
  ghost function Published(log: seq<Event>, n: nat): seq<Will> {
    if log == [] then []
    else
      var e := log[|log| - 1];
      Published(log[..|log| - 1], n) + if e.WillPublished? && e.slot == n then [e.will] else []
  }

  lemma PublishedSnoc(log: seq<Event>, e: Event, n: nat)
    ensures Published(log + [e], n) == Published(log, n) + if e.WillPublished? && e.slot == n then [e.will] else []
  {
    assert (log + [e])[..|log|] == log;
  }

  /** The log has grown by events that are no wills of the slot. */
  ghost predicate NoWill(log: seq<Event>, after: seq<Event>, n: nat) {
    && |log| <= |after| && after[..|log|] == log
    && forall i | |log| <= i < |after| :: !(after[i].WillPublished? && after[i].slot == n)
  }

  lemma {:induction false} NothingPublished(log: seq<Event>, after: seq<Event>, n: nat)
    requires NoWill(log, after, n)
    ensures Published(after, n) == Published(log, n)
    decreases |after|
  {
    if |after| > |log| {
      var less := after[..|after| - 1];
      assert less[..|log|] == log;
      NothingPublished(log, less, n);
    } else {
      assert after == log;
    }
  }

  lemma NoWillChain(a: seq<Event>, b: seq<Event>, c: seq<Event>, n: nat)
    requires NoWill(a, b, n) && NoWill(b, c, n)
    ensures NoWill(a, c, n)
  {
    assert c[..|a|] == b[..|a|];
    forall i | |a| <= i < |b| ensures c[i] == b[i] {
      assert c[i] == c[..|b|][i];
    }
  }

  lemma OneOther(log: seq<Event>, after: seq<Event>, e: Event, n: nat)
    requires (after == log || after == log + [e]) && !(e.WillPublished? && e.slot == n)
    ensures NoWill(log, after, n)
  {
  }

  // Visits

  /** Sending publishes no will. */
  lemma SendPublishesNone(s: Sys, status: Status, address: nat, garbage: bool, n: nat)
    ensures NoWill(s.log, HandlePublishes(s, status, address, garbage).log, n)
  {
    hide SendNext, HasPublishes, StartByAddress;
    var d := StartByAddress(s.db, address);
    NextPublishesNone(s, d, address, NextPublish(Mine(d).queue), garbage, n);
  }

  lemma NextPublishesNone(s: Sys, d: Db, address: nat, next: Publish, garbage: bool, n: nat)
    ensures NoWill(s.log, SendNext(s, d, address, next, garbage).log, n)
  {
    hide SetAwait, SetAwaitId, RemovePublish, SetPublishMsgId, IsTopicKnown, GetTopicName;
  }

  /** ... and leaves the wills of all clients. */
  ghost predicate SameWills(d: Db, e: Db) {
    forall n: nat :: FilesAt(e.files, n).will == FilesAt(d.files, n).will
  }

  lemma SendKeepsWills(s: Sys, status: Status, address: nat, garbage: bool)
    ensures SameWills(s.db, HandlePublishes(s, status, address, garbage).db)
  {
    hide SendNext, HasPublishes, SameWills;
    var d := StartByAddress(s.db, address);
    StartKeepsWills(s.db, address);
    NextKeepsWills(s, d, address, NextPublish(Mine(d).queue), garbage);
    WillsChain(s.db, d, SendNext(s, d, address, NextPublish(Mine(d).queue), garbage).db);
  }

  lemma StartKeepsWills(d: Db, address: nat)
    ensures SameWills(d, d) && SameWills(d, StartByAddress(d, address))
    ensures SameWills(d, Apply(StartByAddress(d, address)))
  {
  }

  lemma WillsChain(d: Db, e: Db, f: Db)
    requires SameWills(d, e) && SameWills(e, f)
    ensures SameWills(d, f) && forall g: Db | g.files == f.files :: SameWills(d, g)
  {
  }

  lemma NextKeepsWills(s: Sys, d: Db, address: nat, next: Publish, garbage: bool)
    ensures SameWills(d, SendNext(s, d, address, next, garbage).db)
  {
    hide GetTopicName, SameWills, SetAwait, SetAwaitId, RemovePublish, SetPublishMsgId;
    var checked := IsTopicKnown(d, next.topicId, garbage).0;
    var msgId := NextMsgId(AwaitId(checked));
    var noted := SetAwaitId(checked, msgId);
    RowKeepsFiles(checked, msgId, REGACK);
    RowKeepsFiles(noted, msgId, REGACK);
    RowKeepsFiles(noted, msgId, PUBACK);
    QueueKeepsWills(d, checked, next.publishId, msgId);
    QueueKeepsWills(d, SetAwait(noted, PUBACK), next.publishId, msgId);
  }

  lemma RowKeepsFiles(d: Db, msgId: nat, await: Await)
    ensures SetAwait(d, await).files == d.files && SetAwaitId(d, msgId).files == d.files
  {
  }

  lemma QueueKeepsWills(d: Db, e: Db, publishId: nat, msgId: nat)
    requires e.files == d.files
    ensures SameWills(d, RemovePublish(e, publishId)) && SameWills(d, SetPublishMsgId(e, publishId, msgId))
    ensures forall g: Db | g.files == d.files :: SameWills(d, g)
    ensures forall g: Db | g.files == RemovePublish(e, publishId).files :: SameWills(d, g)
    ensures forall g: Db | g.files == SetPublishMsgId(e, publishId, msgId).files :: SameWills(d, g)
  {
  }

  /** At this heartbeat the client of row n exceeds its tolerance and has a will. */
  ghost predicate Dies(s: Sys, n: nat, elapsed: nat) {
    var c := NthClient(s.db, n);
    && c.id != "" && c.status in {ACTIVE, ASLEEP, AWAKE} && FilesAt(s.db.files, n).will.Some?
    && !Within(c.duration, (c.timeout + elapsed) % WORD)
  }

  /** The will of a client is published exactly at a heartbeat that finds it lost; then its row and files go. */
  lemma VisitPublishes(s: Sys, n: nat, heartbeat: Option<nat>, garbage: bool)
    requires Live(s, n)
    ensures var t := Visit(s, n, heartbeat, garbage);
            if heartbeat.Some? && Dies(s, n, heartbeat.value) then
              && Published(t.log, n) == Published(s.log, n) + [FilesAt(s.db.files, n).will.value]
              && NthClient(t.db, n) == NO_CLIENT && n !in t.db.files
            else
              && Published(t.log, n) == Published(s.log, n)
              && FilesAt(t.db.files, n).will == FilesAt(s.db.files, n).will && NthClient(t.db, n).id != ""
  {
    hide Inv, HandlePublishes, HandleTimeout, Served, Visit, OnlyAt, Kept, DistinctAddresses, SameWills, Published,
      NoWill, Within, Outbox;
    var row, u := s.db.registry[n], Served(s, n, garbage);
    VisitIsServed(s, n, heartbeat, garbage);
    ServedPublishesNone(s, n, garbage);
    OwnedDistinct(s.db);
    ServedServes(s, n, garbage);
    ServedFacts(s.db, u.db, n);
    if heartbeat.Some? {
      HandleTimeoutAt(u, n, row, heartbeat.value);
      var v := HandleTimeout(u, row, heartbeat.value);
      OnlyAtSize(u.db, v.db, n);
      if Dies(s, n, heartbeat.value) {
        PublishedSnoc(u.log, WillPublished(n, FilesAt(s.db.files, n).will.value), n);
      }
    }
  }

  lemma ServedPublishesNone(s: Sys, n: nat, garbage: bool)
    requires Live(s, n)
    ensures var u := Served(s, n, garbage);
            Published(u.log, n) == Published(s.log, n) && FilesAt(u.db.files, n).will == FilesAt(s.db.files, n).will
  {
    hide Inv, Owned, HandlePublishes, Served, Published, NoWill, Outbox;
    var row := s.db.registry[n];
    var t, u := HandlePublishes(s, row.status, row.address, garbage), Served(s, n, garbage);
    SendPublishesNone(s, row.status, row.address, garbage, n);
    SendKeepsWills(s, row.status, row.address, garbage);
    PingrespIff(s, n, garbage);
    OneOther(t.log, u.log, PingRespSent(n, row.address), n);
    NothingPublished(s.log, t.log, n);
    NothingPublished(t.log, u.log, n);
  }

  /** A visit to another row publishes no will of this one. */
  lemma OtherVisitPublishesNone(s: Sys, k: nat, heartbeat: Option<nat>, garbage: bool, n: nat)
    requires Inv(s) && Owned(s.db) && k != n
    ensures Published(Visit(s, k, heartbeat, garbage).log, n) == Published(s.log, n)
  {
    hide Inv, Owned, HandlePublishes, HandleTimeout, Served, Visit, Published, NoWill, Outbox, OnlyAt, Kept,
      DistinctAddresses, Within;
    if k < |s.db.registry| && s.db.registry[k].id != "" {
      var row := s.db.registry[k];
      var t, u := HandlePublishes(s, row.status, row.address, garbage), Served(s, k, garbage);
      SendPublishesNone(s, row.status, row.address, garbage, n);
      PingrespIff(s, k, garbage);
      OneOther(t.log, u.log, PingRespSent(k, row.address), n);
      NoWillChain(s.log, t.log, u.log, n);
      VisitIsServed(s, k, heartbeat, garbage);
      if heartbeat.Some? {
        var v := HandleTimeout(u, row, heartbeat.value);
        OwnedDistinct(s.db);
        ServedServes(s, k, garbage);
        ServedFacts(s.db, u.db, k);
        HandleTimeoutAt(u, k, row, heartbeat.value);
        var will := FilesAt(u.db.files, k).will;
        OneOther(u.log, v.log, WillPublished(k, if will.Some? then will.value else Store.NO_WILL), n);
        NoWillChain(s.log, u.log, v.log, n);
      }
    } else {
      EmptyVisit(s, k, heartbeat, garbage);
      OneOther(s.log, Visit(s, k, heartbeat, garbage).log, RegackTaken(0), n);
    }
    NothingPublished(s.log, Visit(s, k, heartbeat, garbage).log, n);
  }

  lemma QuietPublishesNone(s: Sys, step: Step, n: nat)
    requires Quiet(step)
    ensures NoWill(s.log, Do(s, step).log, n)
  {
    hide Resolve, Enter, StartByAddress;
  }

  /** Over one step: a will is published for a slot exactly when its client dies in it, and it is the stored one. */
  lemma StepPublishes(s: Sys, step: Step, n: nat)
    requires Inv(s) && Owned(s.db) && Legal(step)
    ensures Published(Do(s, step).log, n) ==
            Published(s.log, n) +
            if step.VisitStep? && step.n == n && step.heartbeat.Some? && Dies(s, n, step.heartbeat.value)
            then [FilesAt(s.db.files, n).will.value] else []
  {
    hide Inv, Owned, Gateway.AddClient, Visit, Published, NoWill, Within;
    match step {
      case Connect(id, duration, clean, address) =>
        ConnectEffect(s, id, duration, clean, address);
        OneOther(s.log, Do(s, step).log, Connected(ConnectSlot(s.db.registry, id, clean)), n);
        NothingPublished(s.log, Do(s, step).log, n);
      case VisitStep(k, heartbeat, garbage) =>
        if k != n {
          OtherVisitPublishesNone(s, k, heartbeat, garbage, n);
        } else if n < |s.db.registry| && s.db.registry[n].id != "" {
          VisitPublishes(s, n, heartbeat, garbage);
        } else {
          EmptyVisit(s, k, heartbeat, garbage);
        }
      case _ =>
        QuietPublishesNone(s, step, n);
        NothingPublished(s.log, Do(s, step).log, n);
    }
  }

  // Runs

  /** The wills due for a slot over a run: those its clients had stored when they died. */
  ghost function Due(s: Sys, steps: seq<Step>, n: nat): seq<Will> {
    if steps == [] then []
    else
      var before, step := steps[..|steps| - 1], steps[|steps| - 1];
      var t := Run(s, before);
      Due(s, before, n) +
      if step.VisitStep? && step.n == n && step.heartbeat.Some? && Dies(t, n, step.heartbeat.value)
      then [FilesAt(t.db.files, n).will.value] else []
  }

  /** Over every run the wills published are exactly those due: none is left out, none comes twice. */
  lemma {:induction false} WillsArePublished(s: Sys, steps: seq<Step>, n: nat)
    requires Inv(s) && Owned(s.db) && OwnedRun(s, steps)
    ensures Published(Run(s, steps).log, n) == Published(s.log, n) + Due(s, steps, n)
  {
    hide Inv, Owned, Do, MakesHole, OwnAddress, Published, Dies;
    if steps != [] {
      var before := steps[..|steps| - 1];
      WillsArePublished(s, before, n);
      OwnedRunKeeps(s, before);
      StepPublishes(Run(s, before), steps[|steps| - 1], n);
    }
  }

  // From the handshake to the end

  /** The step sets, or takes away, the will of the client of row n. */
  predicate Tells(d: Db, step: Step, n: nat) {
    (step.WillTopicStep? || step.WillMessageStep? || step.RemoveWillStep?) && step.address == NthClient(d, n).address
  }

  lemma ResolveKeepsWills(d: Db, topicId: nat, shortTopic: bool)
    ensures SameWills(d, Resolve(d, topicId, shortTopic).0)
  {
    hide GetTopicName;
  }

  lemma EnterKeepsWills(d: Db, name: TopicName, id: nat, qos: nat)
    ensures SameWills(d, Enter(d, name, id, qos).0)
  {
    hide IsSubscribed;
  }

  lemma SubscribeKeepsWills(s: Sys, address: nat, topicId: nat, shortTopic: bool, qos: nat, accepted: bool)
    ensures SameWills(s.db, Gateway.AddSubscription(s, address, topicId, shortTopic, qos, accepted).db)
  {
    hide Resolve, Enter, SameWills, StartByAddress;
    var open := StartByAddress(s.db, address);
    var (resolved, name, id) := Resolve(open, topicId, shortTopic);
    StartKeepsWills(s.db, address);
    WillsChain(s.db, s.db, open);
    ResolveKeepsWills(open, topicId, shortTopic);
    WillsChain(s.db, open, resolved);
    WillsChain(s.db, s.db, s.db);
    if name.Some? {
      var entered := Enter(resolved, name.value, id, if qos >= 1 then 1 else 0).0;
      EnterKeepsWills(resolved, name.value, id, if qos >= 1 then 1 else 0);
      WillsChain(s.db, resolved, entered);
    }
  }

  lemma MineKeepsWills(d: Db, f: Files)
    requires Ready(d) && f.will == Mine(d).will
    ensures SameWills(d, SetMine(d, f))
  {
  }

  lemma QueueStepKeepsWills(s: Sys, step: Step)
    requires step.Register? || step.Puback? || step.BrokerPublish?
    ensures SameWills(s.db, Do(s, step).db)
  {
    hide Enqueued, SameWills, SetMine, StartByAddress, Mine;
    var d := StartByAddress(s.db, step.address);
    StartKeepsWills(s.db, step.address);
    WillsChain(s.db, s.db, d);
    WillsChain(s.db, s.db, s.db);
    forall f: Files | Ready(d) && f.will == Mine(d).will
      ensures forall g: Db | g.files == SetMine(d, f).files :: SameWills(s.db, g)
    {
      MineKeepsWills(d, f);
      WillsChain(s.db, d, SetMine(d, f));
    }
  }

  lemma QuietKeepsWills(s: Sys, step: Step)
    requires Inv(s) && Legal(step) && Quiet(step)
    requires !step.WillTopicStep? && !step.WillMessageStep? && !step.RemoveWillStep?
    ensures SameWills(s.db, Do(s, step).db)
  {
    hide Inv, Gateway.AddSubscription, RegisterTopic, AwaitMessage, SetState, RegackArrived;
    match step {
      case Subscribe(address, topicId, shortTopic, qos, accepted) =>
        SubscribeKeepsWills(s, address, topicId, shortTopic, qos, accepted);
      case UnsubscribeStep(_, _, _) => UnsubscribeTouches(s, step);
      case UnsubscribeNameStep(_, _) => UnsubscribeTouches(s, step);
      case Register(_, _) => QueueStepKeepsWills(s, step);
      case Puback(_, _) => QueueStepKeepsWills(s, step);
      case BrokerPublish(_, _, _, _) => QueueStepKeepsWills(s, step);
      case _ => RowQueues(s, step);
    }
  }

  /** As long as its client neither changes it, connects again nor dies, a will stays as it is. */
  lemma StepKeepsWill(s: Sys, step: Step, n: nat)
    requires Live(s, n) && Legal(step) && NotReconnected(s.db, step, n) && !Tells(s.db, step, n)
    requires step.VisitStep? && step.n == n && step.heartbeat.Some? ==> !Dies(s, n, step.heartbeat.value)
    ensures FilesAt(Do(s, step).db.files, n).will == FilesAt(s.db.files, n).will
  {
    hide Inv, Owned, Gateway.AddClient, Visit, SameWills, Published, Dies, OnlyAt;
    match step {
      case VisitStep(k, heartbeat, garbage) =>
        if k == n {
          VisitPublishes(s, n, heartbeat, garbage);
        } else {
          Interleaving.StepElsewhere(s, step, n);
        }
      case Connect(_, _, _, _) => Interleaving.StepElsewhere(s, step, n);
      case WillTopicStep(_, _, _, _) => Interleaving.StepElsewhere(s, step, n);
      case WillMessageStep(_, _) => Interleaving.StepElsewhere(s, step, n);
      case RemoveWillStep(_) => Interleaving.StepElsewhere(s, step, n);
      case _ =>
        QuietKeepsWills(s, step);
        WillAt(s.db, Do(s, step).db, n);
    }
  }

  lemma WillAt(d: Db, e: Db, n: nat)
    requires SameWills(d, e)
    ensures FilesAt(e.files, n).will == FilesAt(d.files, n).will
  {
  }

  /** No step of the run sets or takes away the will of the client of row n. */
  ghost predicate Untold(s: Sys, steps: seq<Step>, n: nat) {
    steps != [] ==>
      var before := steps[..|steps| - 1];
      Untold(s, before, n) && !Tells(Run(s, before).db, steps[|steps| - 1], n)
  }

  /** While the client stays and does not change it, its will stays stored and is not published. */
  lemma {:induction false} StaysUnpublished(s: Sys, steps: seq<Step>, n: nat)
    requires Inv(s) && Owned(s.db) && OwnedRun(s, steps) && Stays(s, steps, n) && Untold(s, steps, n)
    ensures var t := Run(s, steps);
            && FilesAt(t.db.files, n).will == FilesAt(s.db.files, n).will && Published(t.log, n) == Published(s.log, n)
  {
    hide Inv, Owned, Do, MakesHole, OwnAddress, Published, Dies, Tells;
    if steps != [] {
      var before, step := steps[..|steps| - 1], steps[|steps| - 1];
      var t := Run(s, before);
      StaysUnpublished(s, before, n);
      OwnedRunKeeps(s, before);
      StaysPresent(s, before, n);
      if step.VisitStep? && step.n == n && step.heartbeat.Some? {
        StaysPresent(s, steps, n);
        VisitIs(t, step);
        StillThere(t, n, step.heartbeat, step.garbage);
      }
      StepKeepsWill(t, step, n);
      StepPublishes(t, step, n);
    }
  }

  lemma VisitIs(s: Sys, step: Step)
    requires step.VisitStep?
    ensures Do(s, step) == Visit(s, step.n, step.heartbeat, step.garbage)
  {
    hide Visit;
  }

  /** Who is there after the heartbeat has not died at it. */
  lemma StillThere(s: Sys, n: nat, heartbeat: Option<nat>, garbage: bool)
    requires Live(s, n) && heartbeat.Some? && NthClient(Visit(s, n, heartbeat, garbage).db, n).id != ""
    ensures !Dies(s, n, heartbeat.value)
  {
    hide Inv, Owned, Visit, Published, Dies;
    VisitPublishes(s, n, heartbeat, garbage);
  }

  /** The whole life of a will: sent in the handshake, it is published at the heartbeat that finds its client silent for
      too long, exactly as it was sent, exactly once, and not before; and then the client is gone. */
  lemma {:induction false} WillIsPublished(
      s: Sys, id: string, duration: nat, clean: bool, address: nat,
      topic: string, retain: bool, qos: nat, message: seq<int>,
      later: seq<Step>, elapsed: nat, garbage: bool)
    requires Inv(s) && Owned(s.db) && id != "" && address != 0 && duration <= 65535 && Handlers.Accepts(s, id)
    requires OwnAddress(s, Connect(id, duration, clean, address)) && |topic| < MAXIMUM_TOPIC_NAME_LENGTH
    requires var t := Run(s, Wills.Handshake(id, duration, clean, address, topic, retain, qos, message));
             var n := ConnectSlot(s.db.registry, id, clean);
             && OwnedRun(t, later) && Stays(t, later, n) && Untold(t, later, n)
             && elapsed < WORD - MAXIMUM_TOLERANCE
             && var sum := Silence(later, n) + elapsed;
                if duration > 60 then 10 * sum > 11000 * duration else 2 * sum > 3000 * duration
    ensures var t := Run(s, Wills.Handshake(id, duration, clean, address, topic, retain, qos, message));
            var n := ConnectSlot(s.db.registry, id, clean);
            var before, end := Run(t, later), Visit(Run(t, later), n, Some(elapsed), garbage);
            && Published(before.log, n) == Published(t.log, n)
            && Published(end.log, n) == Published(t.log, n) + [Will(topic, message, qos, retain)]
            && NthClient(end.db, n) == NO_CLIENT && n !in end.db.files
  {
    hide Inv, Owned, Run, Wills.Handshake, ConnectSlot, OwnedRun, Visit, Published, Untold;
    Wills.WillIsStored(s, id, duration, clean, address, topic, retain, qos, message);
    var t := Run(s, Wills.Handshake(id, duration, clean, address, topic, retain, qos, message));
    var n := ConnectSlot(s.db.registry, id, clean);
    TimeoutIsSilence(t, later, n);
    StaysUnpublished(t, later, n);
    OwnedRunKeeps(t, later);
    StaysPresent(t, later, n);
    VisitPublishes(Run(t, later), n, Some(elapsed), garbage);
  }
}
