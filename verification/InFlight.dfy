/** There is always at most one message in flight to a client, and its await type shows it. */
module InFlight {
  import opened Bytes
  import opened Scan
  import opened Store
  import opened Gateway
  import opened Soundness
  import opened Operations
  import opened Unsubscribing
  import opened Conservation
  import opened Effects
  import opened Visits
  import opened Ownership

  /** REGISTERs and QoS 1 PUBLISHes sent to a slot since its last CONNECT and not answered. */
  datatype Flight = Flight(registers: nat, publishes: nat)

  ghost function After(f: Flight, e: Event, slot: nat): Flight {
    match e
    case Connected(n) => if n == slot then Flight(0, 0) else f
    case RegisterSent(n, _, _, _, _) => if n == slot then f.(registers := f.registers + 1) else f
    case PublishSent(n, _, _, p) => if n == slot && p.qos == 1 then f.(publishes := f.publishes + 1) else f
    case RegackTaken(n) => if n == slot && f.registers > 0 then f.(registers := f.registers - 1) else f
    case PubackArrived(n) => if n == slot && f.publishes > 0 then f.(publishes := f.publishes - 1) else f
    case PingRespSent(_, _) => f
    case WillPublished(_, _) => f
  }

  ghost function Unanswered(log: seq<Event>, slot: nat): Flight {
    if log == [] then Flight(0, 0) else After(Unanswered(log[..|log| - 1], slot), log[|log| - 1], slot)
  }

  lemma UnansweredSnoc(log: seq<Event>, e: Event, slot: nat)
    ensures Unanswered(log + [e], slot) == After(Unanswered(log, slot), e, slot)
  {
    assert (log + [e])[..|log|] == log;
  }

  /** At most one message is unanswered; a client that is idle has none; while a REGACK is awaited no PUBLISH is. */
  ghost predicate OneInFlight(f: Flight, await: Await) {
    || f == Flight(0, 0)
    || (f == Flight(1, 0) && await != PINGREQ)
    || (f == Flight(0, 1) && await != PINGREQ && await != REGACK)
  }

  /** The claim for every slot of the registry, used or not. */
  ghost predicate FlightOk(rows: seq<Client>, log: seq<Event>) {
    forall n: nat :: OneInFlight(Unanswered(log, n), if n < |rows| then rows[n].await else NONE)
  }

  /** Nothing sent, nothing awaited differently. */
  lemma SameFlight(rows: seq<Client>, after: seq<Client>, log: seq<Event>)
    requires FlightOk(rows, log) && AwaitsKept(rows, after)
    ensures FlightOk(after, log)
  {
    forall n: nat ensures OneInFlight(Unanswered(log, n), if n < |after| then after[n].await else NONE) {
      assert OneInFlight(Unanswered(log, n), if n < |rows| then rows[n].await else NONE);
    }
  }

  /** One slot's await type, and possibly one event of that slot. */
  ghost predicate OneChange(rows: seq<Client>, after: seq<Client>, k: nat) {
    |after| == |rows| && forall n | 0 <= n < |rows| && n != k :: after[n].await == rows[n].await
  }

  predicate EventOf(e: Event, k: nat) {
    match e
    case Connected(n) => n == k
    case RegisterSent(n, _, _, _, _) => n == k
    case PublishSent(n, _, _, _) => n == k
    case RegackTaken(n) => n == k
    case PubackArrived(n) => n == k
    case PingRespSent(_, _) => true
    case WillPublished(_, _) => true
  }

  lemma OtherSlots(log: seq<Event>, e: Event, k: nat)
    requires EventOf(e, k)
    ensures forall n: nat | n != k :: Unanswered(log + [e], n) == Unanswered(log, n)
  {
    forall n: nat | n != k ensures Unanswered(log + [e], n) == Unanswered(log, n) {
      UnansweredSnoc(log, e, n);
    }
  }

  lemma ChangedFlight(rows: seq<Client>, after: seq<Client>, log: seq<Event>, k: nat)
    requires FlightOk(rows, log) && OneChange(rows, after, k)
    requires OneInFlight(Unanswered(log, k), if k < |after| then after[k].await else NONE)
    ensures FlightOk(after, log)
  {
    hide OneInFlight, Unanswered;
    forall n: nat ensures OneInFlight(Unanswered(log, n), if n < |after| then after[n].await else NONE) {
      assert OneInFlight(Unanswered(log, n), if n < |rows| then rows[n].await else NONE);
    }
  }

  lemma ChangedFlightWith(rows: seq<Client>, after: seq<Client>, log: seq<Event>, e: Event, k: nat)
    requires FlightOk(rows, log) && OneChange(rows, after, k) && EventOf(e, k)
    requires OneInFlight(After(Unanswered(log, k), e, k), if k < |after| then after[k].await else NONE)
    ensures FlightOk(after, log + [e])
  {
    hide OneInFlight, Unanswered, After;
    OtherSlots(log, e, k);
    UnansweredSnoc(log, e, k);
    forall n: nat ensures OneInFlight(Unanswered(log + [e], n), if n < |after| then after[n].await else NONE) {
      assert OneInFlight(Unanswered(log, n), if n < |rows| then rows[n].await else NONE);
    }
  }

  /** An awaited will or PUBREL, which the message handler sets, hides the idle state and never shows it. */
  lemma AwaitStepFlight(s: Sys, address: nat, await: Await)
    requires Inv(s) && address != 0 && await in {WILLTOPIC, WILLMSG, PUBREL} && FlightOk(s.db.registry, s.log)
    ensures var t := AwaitMessage(s, address, await); FlightOk(t.db.registry, t.log)
  {
    hide Sound, Unanswered, FlightOk;
    var d := StartByAddress(s.db, address);
    Opened(s, address);
    if Ready(d) {
      AwaitWritten(d, await);
      SlotFlight(s.db.registry, s.log, d.entry.fileNumber);
      ChangedFlight(s.db.registry, SetAwait(d, await).registry, s.log, d.entry.fileNumber);
    }
  }

  lemma AwaitWritten(d: Db, await: Await)
    requires Sound(d) && Ready(d)
    ensures var k := d.entry.fileNumber;
            && k < |d.registry| && d.registry[k] == d.entry
            && SetAwait(d, await).registry == d.registry[k := d.entry.(await := await)]
            && SetAwait(d, await).entry == d.entry.(await := await) && Ready(SetAwait(d, await))
  {
  }

  lemma SlotFlight(rows: seq<Client>, log: seq<Event>, k: nat)
    requires FlightOk(rows, log)
    ensures OneInFlight(Unanswered(log, k), if k < |rows| then rows[k].await else NONE)
  {
  }

  /** A REGACK is taken only while it is awaited; then nothing is in flight any more. */
  lemma RegackFlight(s: Sys, address: nat, msgId: nat, code: nat)
    requires Inv(s) && address != 0 && FlightOk(s.db.registry, s.log)
    ensures var t := RegackArrived(s, address, msgId, code); FlightOk(t.db.registry, t.log)
  {
    hide Sound, Unanswered, FlightOk;
    var d := StartByAddress(s.db, address);
    Opened(s, address);
    if AwaitType(d) == REGACK && AwaitId(d) == msgId && code in {0, 1} {
      var k := d.entry.fileNumber;
      AwaitWritten(d, PINGREQ);
      SlotFlight(s.db.registry, s.log, k);
      ChangedFlightWith(s.db.registry, SetAwait(d, PINGREQ).registry, s.log, RegackTaken(k), k);
    }
  }

  /** A REGACK is taken exactly when it is awaited under that message id and its code is ACCEPTED or CONGESTION; it
      makes the client idle, and any other changes nothing. */
  lemma RegackEffect(s: Sys, address: nat, msgId: nat, code: nat)
    requires Inv(s) && address != 0
    ensures var d, t := StartByAddress(s.db, address), RegackArrived(s, address, msgId, code);
            if Ready(d) && d.entry.await == REGACK && d.entry.awaitId == msgId && code in {0, 1} then
              && t.log == s.log + [RegackTaken(d.entry.fileNumber)] && d.entry.fileNumber < |s.db.registry|
              && t.db.registry == s.db.registry[d.entry.fileNumber := d.entry.(await := PINGREQ)]
            else t.log == s.log && t.db.registry == s.db.registry
  {
    hide Sound, SetAwait;
    Opened(s, address);
    if Ready(StartByAddress(s.db, address)) {
      AwaitWritten(StartByAddress(s.db, address), PINGREQ);
    }
  }

  /** A PUBACK answers a PUBLISH, if one is in flight, and leaves the await type. */
  lemma PubackFlight(s: Sys, address: nat, queue: seq<Publish>)
    requires Inv(s) && address != 0 && FlightOk(s.db.registry, s.log)
    ensures var t := PubackArrives(s, address, queue); FlightOk(t.db.registry, t.log)
  {
    hide Sound, Unanswered, FlightOk;
    var d := StartByAddress(s.db, address);
    Opened(s, address);
    if Ready(d) {
      var k := d.entry.fileNumber;
      SlotFlight(s.db.registry, s.log, k);
      ChangedFlightWith(s.db.registry, s.db.registry, s.log, PubackArrived(k), k);
    }
  }

  /** CONNECT starts a slot anew. */
  lemma ConnectFlight(s: Sys, id: string, duration: nat, clean: bool, address: nat)
    requires Inv(s) && id != "" && address != 0 && FlightOk(s.db.registry, s.log)
    ensures var t := Gateway.AddClient(s, id, duration, clean, address); FlightOk(t.db.registry, t.log)
  {
    hide Inv, Gateway.AddClient, Unanswered, FlightOk;
    ConnectEffect(s, id, duration, clean, address);
    if s.online && |id| < MAXIMUM_CLIENT_ID_LENGTH {
      var rows, t := s.db.registry, Gateway.AddClient(s, id, duration, clean, address);
      var m, k := First(rows, ById(id)), ConnectSlot(rows, id, clean);
      if m < |rows| && !clean {
        ChangedFlightWith(rows, t.db.registry, s.log, Connected(k), k);
      } else {
        DroppedFlight(rows, id, s.log);
        SeatedFlight(RowsFor(rows, id), t.db.registry[k], s.log);
      }
    }
  }

  lemma DroppedFlight(rows: seq<Client>, id: string, log: seq<Event>)
    requires FlightOk(rows, log)
    ensures FlightOk(RowsFor(rows, id), log)
  {
    hide Unanswered, FlightOk;
    var m := First(rows, ById(id));
    SlotFlight(rows, log, m);
    ChangedFlight(rows, RowsFor(rows, id), log, m);
  }

  lemma SeatedFlight(rows: seq<Client>, c: Client, log: seq<Event>)
    requires FlightOk(rows, log) && c.fileNumber <= |rows|
    ensures FlightOk(Seat(rows, c), log + [Connected(c.fileNumber)])
  {
    hide Unanswered;
    var k := c.fileNumber;
    OtherSlots(log, Connected(k), k);
    UnansweredSnoc(log, Connected(k), k);
    forall n: nat
      ensures OneInFlight(Unanswered(log + [Connected(k)], n),
                          if n < |Seat(rows, c)| then Seat(rows, c)[n].await else NONE)
    {
      assert OneInFlight(Unanswered(log, n), if n < |rows| then rows[n].await else NONE);
    }
  }

  // Visits

  /** The client is idle: nothing of its slot is in flight. */
  ghost predicate IdleClient(s: Sys, d: Db) {
    Sound(d) && Ready(d) && d.entry.await == PINGREQ && d.registry == s.db.registry && FlightOk(s.db.registry, s.log)
  }

  /** Nothing in flight, and one event more. */
  lemma FromIdle(e: Event, k: nat)
    ensures var after := After(Flight(0, 0), e, k);
            && (e.RegisterSent? ==> after.publishes == 0 && after.registers <= 1)
            && (e.PublishSent? ==> after.registers == 0 && after.publishes <= 1)
            && (e.PublishSent? && e.publish.qos == 0 ==> after == Flight(0, 0))
  {
  }

  lemma IdleIsEmpty(f: Flight)
    requires OneInFlight(f, PINGREQ)
    ensures f == Flight(0, 0)
  {
  }

  /** A REGISTER goes out, and a REGACK is awaited. */
  lemma RegisterFlight(s: Sys, d: Db, address: nat, topicId: nat, msgId: nat, name: TopicName)
    requires IdleClient(s, d)
    ensures var t := Finish(s, SetAwait(d, REGACK), RegisterSent(d.entry.fileNumber, address, topicId, msgId, name));
            FlightOk(t.db.registry, t.log)
  {
    hide Sound, Unanswered, FlightOk, SetAwait, Finish, After;
    var k := d.entry.fileNumber;
    var event := RegisterSent(k, address, topicId, msgId, name);
    AwaitWritten(d, REGACK);
    SlotFlight(s.db.registry, s.log, k);
    IdleIsEmpty(Unanswered(s.log, k));
    FromIdle(event, k);
    SentFlight(s, SetAwait(d, REGACK), event, k);
  }

  /** A QoS 0 PUBLISH goes out, and nothing is awaited. */
  lemma UnconfirmedFlight(s: Sys, d: Db, address: nat, next: Publish)
    requires IdleClient(s, d) && next.qos == 0
    ensures var t := Finish(s, RemovePublish(d, next.publishId), PublishSent(d.entry.fileNumber, address, 0, next));
            FlightOk(t.db.registry, t.log)
  {
    hide Sound, Unanswered, FlightOk, RemovePublish, Finish, After;
    var k := d.entry.fileNumber;
    var event := PublishSent(k, address, 0, next);
    AwaitWritten(d, PINGREQ);
    SlotFlight(s.db.registry, s.log, k);
    IdleIsEmpty(Unanswered(s.log, k));
    FromIdle(event, k);
    QueueRegistry(d, next.publishId, 0);
    SentFlight(s, RemovePublish(d, next.publishId), event, k);
  }

  /** A QoS 1 PUBLISH goes out, and a PUBACK is awaited. */
  lemma ConfirmedFlight(s: Sys, d: Db, address: nat, next: Publish, msgId: nat)
    requires IdleClient(s, d) && next.qos == 1
    ensures var t := Finish(s, SetPublishMsgId(SetAwait(d, PUBACK), next.publishId, msgId),
                            PublishSent(d.entry.fileNumber, address, msgId, next));
            FlightOk(t.db.registry, t.log)
  {
    hide Sound, Unanswered, FlightOk, SetAwait, SetPublishMsgId, Finish, After;
    var k := d.entry.fileNumber;
    var event := PublishSent(k, address, msgId, next);
    AwaitWritten(d, PUBACK);
    SlotFlight(s.db.registry, s.log, k);
    IdleIsEmpty(Unanswered(s.log, k));
    FromIdle(event, k);
    QueueRegistry(SetAwait(d, PUBACK), next.publishId, msgId);
    SentFlight(s, SetPublishMsgId(SetAwait(d, PUBACK), next.publishId, msgId), event, k);
  }

  /** Sending starts from the idle state, and leaves it for a REGISTER or a QoS 1 PUBLISH. */
  lemma SendNextFlight(s: Sys, d: Db, address: nat, next: Publish, garbage: bool)
    requires IdleClient(s, d)
    ensures var t := SendNext(s, d, address, next, garbage); FlightOk(t.db.registry, t.log)
  {
    hide Sound, FlightOk, SetAwait, SetAwaitId, RemovePublish, SetPublishMsgId, Finish, GetTopicName;
    var msgId := NextMsgId(AwaitId(d));
    SoundEntry(d);
    AwaitIdUnchanged(d, msgId);
    var name := GetTopicName(d, next.topicId);
    if name.Some? {
      RegisterFlight(s, d, address, next.topicId, msgId, name.value);
    }
    if next.qos == 0 {
      UnconfirmedFlight(s, d, address, next);
    } else if next.qos == 1 {
      ConfirmedFlight(s, d, address, next, msgId);
    }
    NoNameForZero(d);
  }

  lemma NoNameForZero(d: Db)
    ensures GetTopicName(d, 0).None? && GetTopicName(d.(error := true), 0).None?
  {
  }

  lemma QueueRegistry(d: Db, publishId: nat, msgId: nat)
    ensures RemovePublish(d, publishId).registry == d.registry
    ensures SetPublishMsgId(d, publishId, msgId).registry == d.registry
  {
  }

  /** The end of a transaction that sends, or fails. */
  lemma SentFlight(s: Sys, e: Db, event: Event, k: nat)
    requires FlightOk(s.db.registry, s.log) && OneChange(s.db.registry, e.registry, k) && EventOf(event, k)
    requires OneInFlight(After(Unanswered(s.log, k), event, k), if k < |e.registry| then e.registry[k].await else NONE)
    requires OneInFlight(Unanswered(s.log, k), if k < |e.registry| then e.registry[k].await else NONE)
    ensures var t := Finish(s, e, event); FlightOk(t.db.registry, t.log)
  {
    hide FlightOk, OneInFlight, OneChange;
    ChangedFlight(s.db.registry, e.registry, s.log, k);
    ChangedFlightWith(s.db.registry, e.registry, s.log, event, k);
  }

  lemma HandlePublishesFlight(s: Sys, status: Status, address: nat, garbage: bool)
    requires Inv(s) && (status in {AWAKE, ACTIVE} ==> address != 0) && FlightOk(s.db.registry, s.log)
    ensures var t := HandlePublishes(s, status, address, garbage); FlightOk(t.db.registry, t.log)
  {
    hide Sound, FlightOk, SendNext;
    if status in {AWAKE, ACTIVE} {
      var d := StartByAddress(s.db, address);
      Opened(s, address);
      if AwaitType(d) == PINGREQ && HasPublishes(d) {
        SendNextFlight(s, d, address, NextPublish(Mine(d).queue), garbage);
      }
    }
  }

  lemma AnswerPingFlight(s: Sys, status: Status, address: nat)
    requires Inv(s) && (status == AWAKE ==> address != 0) && FlightOk(s.db.registry, s.log)
    ensures var t := AnswerPing(s, status, address); FlightOk(t.db.registry, t.log)
  {
    hide Sound, FlightOk, SetStatus, Unanswered;
    if status == AWAKE {
      var d := StartByAddress(s.db, address);
      Opened(s, address);
      SoundEntry(d);
      StatusKept(d, ASLEEP);
      NeutralEvent(s.db.registry, SetStatus(d, ASLEEP).registry, s.log, PingRespSent(d.entry.fileNumber, address));
    }
  }

  /** Events that say nothing about messages in flight. */
  lemma NeutralEvent(rows: seq<Client>, after: seq<Client>, log: seq<Event>, e: Event)
    requires FlightOk(rows, log) && AwaitsKept(rows, after) && (e.PingRespSent? || e.WillPublished?)
    ensures FlightOk(after, log) && FlightOk(after, log + [e])
  {
    hide Unanswered;
    SameFlight(rows, after, log);
    forall n: nat ensures OneInFlight(Unanswered(log + [e], n), if n < |after| then after[n].await else NONE) {
      UnansweredSnoc(log, e, n);
      assert OneInFlight(Unanswered(log, n), if n < |after| then after[n].await else NONE);
    }
  }

  lemma HandleTimeoutFlight(s: Sys, row: Client, elapsed: nat)
    requires Inv(s) && (row.status in {ACTIVE, ASLEEP, AWAKE} ==> row.address != 0 && row.id != "")
    requires FlightOk(s.db.registry, s.log)
    ensures var t := HandleTimeout(s, row, elapsed); FlightOk(t.db.registry, t.log)
  {
    hide Inv, Sound, SetTimeout, SetStatus, Expire, Tolerance, FlightOk;
    if row.status in {ACTIVE, ASLEEP, AWAKE} {
      var timed, lost := TimeoutStates(s, row, elapsed);
      SameFlight(s.db.registry, timed.registry, s.log);
      SameFlight(s.db.registry, lost.registry, s.log);
      ExpireFlight(s.(db := lost), row.id);
    }
  }

  lemma ExpireFlight(s: Sys, id: ClientId)
    requires Sound(s.db) && id != "" && FlightOk(s.db.registry, s.log)
    ensures FlightOk(Expire(s, id).db.registry, Expire(s, id).log)
  {
    hide Sound, DropClient, FlightOk;
    if Ready(s.db) && Mine(s.db).will.Some? {
      var event := WillPublished(s.db.entry.fileNumber, Mine(s.db).will.value);
      NeutralEvent(s.db.registry, s.db.registry, s.log, event);
      DropClientKeeps(s.(log := s.log + [event]), id);
      DroppedFlight(s.db.registry, id, s.log + [event]);
    }
  }

  lemma VisitFlight(s: Sys, n: nat, heartbeat: Option<nat>, garbage: bool)
    requires Inv(s) && FlightOk(s.db.registry, s.log)
    ensures var t := Visit(s, n, heartbeat, garbage); FlightOk(t.db.registry, t.log)
  {
    hide Inv, HandlePublishes, AnswerPing, HandleTimeout, RowsOk, FlightOk;
    var row := NthClient(s.db, n);
    RowsInOrder(s);
    if n < |s.db.registry| && row.status != EMPTY {
      RowInUse(s.db.registry, n);
    }
    HandlePublishesKeeps(s, row.status, row.address, garbage);
    HandlePublishesFlight(s, row.status, row.address, garbage);
    var t := HandlePublishes(s, row.status, row.address, garbage);
    AnswerPingKeeps(t, row.status, row.address);
    AnswerPingFlight(t, row.status, row.address);
    if heartbeat.Some? {
      HandleTimeoutFlight(AnswerPing(t, row.status, row.address), row, heartbeat.value);
    }
  }

  // Runs

  lemma StepFlight(s: Sys, step: Step)
    requires Inv(s) && Legal(step) && FlightOk(s.db.registry, s.log)
    ensures FlightOk(Do(s, step).db.registry, Do(s, step).log)
  {
    hide Inv, Gateway.AddClient, Visit, FlightOk, AwaitMessage, RegackArrived, PubackArrives, Kept, AwaitsKept;
    match step {
      case Connect(id, duration, clean, address) => ConnectFlight(s, id, duration, clean, address);
      case AwaitStep(address, await) => AwaitStepFlight(s, address, await);
      case Regack(address, msgId, code) => RegackFlight(s, address, msgId, code);
      case Puback(address, queue) => PubackFlight(s, address, queue);
      case VisitStep(n, heartbeat, garbage) => VisitFlight(s, n, heartbeat, garbage);
      case _ =>
        QuietKept(s, step);
        SameFlight(s.db.registry, Do(s, step).db.registry, s.log);
        QuietLog(s, step);
    }
  }

  lemma QuietLog(s: Sys, step: Step)
    requires Quiet(step) && !step.Regack? && !step.Puback?
    ensures Do(s, step).log == s.log
  {
    hide Resolve, Enter;
  }

  /** One message in flight: after every good run, each registry slot has at most one unanswered REGISTER or QoS 1
      PUBLISH since its last CONNECT, and while it has one the client's await type is not PINGREQ. */
  lemma {:induction false} OneMessageInFlight(s: Sys, steps: seq<Step>)
    requires Fresh(s) && GoodRun(s, steps)
    ensures FlightOk(Run(s, steps).db.registry, Run(s, steps).log)
  {
    hide Inv, Do, Fresh, MakesHole, FlightOk;
    FreshIsSound(s);
    if steps == [] {
      FreshFlight(s);
    } else {
      OneMessageInFlight(s, steps[..|steps| - 1]);
      RunKeeps(s, steps[..|steps| - 1]);
      StepFlight(Run(s, steps[..|steps| - 1]), steps[|steps| - 1]);
    }
  }

  lemma FreshFlight(s: Sys)
    requires Fresh(s)
    ensures FlightOk(s.db.registry, s.log)
  {
  }
}
