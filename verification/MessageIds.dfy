/** Message ids: the gateway sends every REGISTER and every QoS 1 PUBLISH under id 1 and remembers 0, so a REGACK that
    answers under the id it was sent is never taken. */
module MessageIds {
  import opened Bytes
  import opened Store
  import opened Gateway
  import opened Soundness
  import opened Operations
  import opened Unsubscribing
  import opened Conservation
  import opened Effects
  import opened Visits
  import opened Ownership
  import opened Stalls
  import InFlight

  /** No row remembers a message id. */
  ghost predicate NoneRemembered(rows: seq<Client>) {
    forall i | 0 <= i < |rows| :: rows[i].awaitId == 0
  }

  /** The id a message is sent under: 0 with QoS 0, and 1 otherwise. */
  ghost predicate SentUnderOne(e: Event) {
    && (e.RegisterSent? ==> e.msgId == 1)
    && (e.PublishSent? ==> e.msgId == if e.publish.qos == 0 then 0 else 1)
  }

  ghost predicate AllUnderOne(log: seq<Event>) {
    forall i | 0 <= i < |log| :: SentUnderOne(log[i])
  }

  ghost predicate Unnumbered(s: Sys) {
    NoneRemembered(s.db.registry) && AllUnderOne(s.log)
  }

  // Steps

  lemma KeptRemembers(d: Db, e: Db)
    requires Kept(d, e) && NoneRemembered(d.registry)
    ensures NoneRemembered(e.registry)
  {
  }

  lemma OneMore(log: seq<Event>, after: seq<Event>, e: Event)
    requires AllUnderOne(log) && (after == log || after == log + [e]) && SentUnderOne(e)
    ensures AllUnderOne(after)
  {
  }

  /** What is sent carries the id after the remembered one. */
  lemma SendIds(s: Sys, status: Status, address: nat, garbage: bool)
    requires AllUnderOne(s.log) && AwaitId(StartByAddress(s.db, address)) == 0
    ensures AllUnderOne(HandlePublishes(s, status, address, garbage).log)
  {
    hide AllUnderOne, SendNext, HasPublishes, StartByAddress;
    var d := StartByAddress(s.db, address);
    SendNextIds(s, d, address, NextPublish(Mine(d).queue), garbage);
  }

  lemma SendNextIds(s: Sys, d: Db, address: nat, next: Publish, garbage: bool)
    requires AllUnderOne(s.log) && AwaitId(d) == 0
    ensures AllUnderOne(SendNext(s, d, address, next, garbage).log)
  {
    hide AllUnderOne, SetAwait, SetAwaitId, RemovePublish, SetPublishMsgId, IsTopicKnown, GetTopicName;
    CheckedId(d, next.topicId, garbage);
    var slot := IsTopicKnown(d, next.topicId, garbage).0.entry.fileNumber;
    var after := SendNext(s, d, address, next, garbage).log;
    var name := GetTopicName(IsTopicKnown(d, next.topicId, garbage).0, next.topicId);
    OneMore(s.log, s.log, RegackTaken(0));
    if name.Some? {
      OneMore(s.log, s.log + [RegisterSent(slot, address, next.topicId, 1, name.value)],
              RegisterSent(slot, address, next.topicId, 1, name.value));
    }
    if next.qos <= 1 {
      OneMore(s.log, s.log + [PublishSent(slot, address, next.qos, next)], PublishSent(slot, address, next.qos, next));
    }
  }

  lemma CheckedId(d: Db, id: nat, garbage: bool)
    requires AwaitId(d) == 0
    ensures AwaitId(IsTopicKnown(d, id, garbage).0) == 0
  {
  }

  /** Events that carry no message id. */
  lemma NumberlessKeeps(log: seq<Event>, after: seq<Event>)
    requires AllUnderOne(log) && |log| <= |after| && after[..|log|] == log
    requires forall i | |log| <= i < |after| :: !after[i].RegisterSent? && !after[i].PublishSent?
    ensures AllUnderOne(after)
  {
    forall i | 0 <= i < |log| ensures SentUnderOne(after[i]) {
      assert after[i] == after[..|log|][i];
    }
  }

  lemma VisitIds(s: Sys, k: nat, heartbeat: Option<nat>, garbage: bool)
    requires Inv(s) && Owned(s.db) && Unnumbered(s) && k < |s.db.registry| && s.db.registry[k].id != ""
    ensures AllUnderOne(Visit(s, k, heartbeat, garbage).log)
  {
    hide Inv, Sound, HandlePublishes, AnswerPing, HandleTimeout, AllUnderOne, DistinctAddresses, OnlyAt, Kept;
    var row := s.db.registry[k];
    LiveRow(s, k);
    OwnedDistinct(s.db);
    OwnRow(s, k);
    SendIds(s, row.status, row.address, garbage);
    var t := HandlePublishes(s, row.status, row.address, garbage);
    var u := AnswerPing(t, row.status, row.address);
    AnswerPingEvents(t, row.status, row.address);
    NumberlessKeeps(t.log, u.log);
    ServedServes(s, k, garbage);
    if heartbeat.Some? {
      TimeoutEvents(u, row, heartbeat.value);
      NumberlessKeeps(u.log, HandleTimeout(u, row, heartbeat.value).log);
    }
  }

  /** The log has grown by events that send no message. */
  ghost predicate NoMessages(log: seq<Event>, after: seq<Event>) {
    && |log| <= |after| && after[..|log|] == log
    && forall i | |log| <= i < |after| :: !after[i].RegisterSent? && !after[i].PublishSent?
  }

  lemma AnswerPingEvents(s: Sys, status: Status, address: nat)
    ensures NoMessages(s.log, AnswerPing(s, status, address).log)
  {
    hide SetStatus, HasPublishes, StartByAddress;
  }

  lemma TimeoutEvents(s: Sys, row: Client, elapsed: nat)
    requires Inv(s) && (row.status in {ACTIVE, ASLEEP, AWAKE} ==> row.address != 0 && row.id != "")
    ensures NoMessages(s.log, HandleTimeout(s, row, elapsed).log)
  {
    hide Inv, Sound, SetTimeout, SetStatus, Expire, Tolerance;
    if row.status in {ACTIVE, ASLEEP, AWAKE} {
      var timed, lost := TimeoutStates(s, row, elapsed);
      ExpireEvents(s.(db := lost), row.id);
    }
  }

  lemma ExpireEvents(s: Sys, id: ClientId)
    requires Sound(s.db) && id != ""
    ensures NoMessages(s.log, Expire(s, id).log)
  {
    hide Sound, DropClient;
    if Ready(s.db) && Mine(s.db).will.Some? {
      DropClientKeeps(s.(log := s.log + [WillPublished(s.db.entry.fileNumber, Mine(s.db).will.value)]), id);
    }
  }

  lemma QuietEventsSendNothing(s: Sys, step: Step)
    requires Quiet(step)
    ensures NoMessages(s.log, Do(s, step).log)
  {
    hide Resolve, Enter, StartByAddress;
  }

  lemma VisitRemembers(s: Sys, k: nat, heartbeat: Option<nat>, garbage: bool)
    requires Inv(s) && Owned(s.db) && NoneRemembered(s.db.registry) && k < |s.db.registry| && s.db.registry[k].id != ""
    ensures NoneRemembered(Visit(s, k, heartbeat, garbage).db.registry)
  {
    hide Inv, HandlePublishes, AnswerPing, HandleTimeout, Owned, DistinctAddresses;
    OwnedDistinct(s.db);
    ServedServes(s, k, garbage);
    var served := Served(s, k, garbage);
    KeptRemembers(s.db, served.db);
    if heartbeat.Some? {
      HandleTimeoutAt(served, k, s.db.registry[k], heartbeat.value);
    }
  }

  lemma ConnectIds(s: Sys, id: string, duration: nat, clean: bool, address: nat)
    requires Inv(s) && Unnumbered(s) && id != "" && address != 0
    ensures Unnumbered(Gateway.AddClient(s, id, duration, clean, address))
  {
    hide Inv, Gateway.AddClient, ConnectSlot, FilesFor, AllUnderOne;
    ConnectEffect(s, id, duration, clean, address);
    OneMore(s.log, Gateway.AddClient(s, id, duration, clean, address).log,
            Connected(ConnectSlot(s.db.registry, id, clean)));
  }

  lemma StepIds(s: Sys, step: Step)
    requires Inv(s) && Owned(s.db) && Legal(step) && Unnumbered(s)
    ensures Unnumbered(Do(s, step))
  {
    hide Inv, Owned, Kept, Gateway.AddClient, Visit, NoneRemembered, AllUnderOne;
    match step {
      case Connect(id, duration, clean, address) => ConnectIds(s, id, duration, clean, address);
      case VisitStep(k, heartbeat, garbage) =>
        if k < |s.db.registry| && s.db.registry[k].id != "" {
          VisitIds(s, k, heartbeat, garbage);
          VisitRemembers(s, k, heartbeat, garbage);
        } else {
          EmptyVisit(s, k, heartbeat, garbage);
        }
      case _ =>
        QuietKept(s, step);
        KeptRemembers(s.db, Do(s, step).db);
        QuietEventsSendNothing(s, step);
        NumberlessKeeps(s.log, Do(s, step).log);
    }
  }

  // Runs

  lemma {:induction false} EverythingUnderOne(s: Sys, steps: seq<Step>)
    requires Inv(s) && Owned(s.db) && Unnumbered(s) && OwnedRun(s, steps)
    ensures Unnumbered(Run(s, steps))
  {
    hide Inv, Owned, Do, MakesHole, OwnAddress, Unnumbered;
    if steps != [] {
      var before := steps[..|steps| - 1];
      EverythingUnderOne(s, before);
      OwnedRunKeeps(s, before);
      StepIds(Run(s, before), steps[|steps| - 1]);
    }
  }

  /** Over every good run from an empty gateway no row remembers a message id, every REGISTER goes out under id 1, and
      every PUBLISH under id 0 with QoS 0 and under id 1 otherwise. */
  lemma {:induction false} IdsFromFresh(s: Sys, steps: seq<Step>)
    requires Fresh(s) && OwnedRun(s, steps)
    ensures Unnumbered(Run(s, steps))
  {
    hide OwnedRun, Run;
    FreshIsSound(s);
    EverythingUnderOne(s, steps);
  }

  /** So a REGACK is taken exactly if one is awaited, its message id is 0 and its code is ACCEPTED or CONGESTION; any
      other REGACK changes neither registry nor log. */
  lemma RegackTakenIff(s: Sys, address: nat, msgId: nat, code: nat)
    requires Inv(s) && Unnumbered(s) && address != 0
    ensures var d, t := StartByAddress(s.db, address), RegackArrived(s, address, msgId, code);
            if Ready(d) && d.entry.await == REGACK && msgId == 0 && code in {0, 1} then
              t.log == s.log + [RegackTaken(d.entry.fileNumber)]
            else t.log == s.log && t.db.registry == s.db.registry
  {
    hide Sound, RegackArrived, AllUnderOne;
    InFlight.RegackEffect(s, address, msgId, code);
    RememberedByEntry(s, address);
  }

  lemma RememberedByEntry(s: Sys, address: nat)
    requires NoneRemembered(s.db.registry) && !s.db.started
    ensures Ready(StartByAddress(s.db, address)) ==> StartByAddress(s.db, address).entry.awaitId == 0
  {
  }

  /** The REGACK answers under a message id that a REGISTER to its sender carried. */
  ghost predicate Echoes(log: seq<Event>, step: Step) {
    step.Regack? ==>
      exists i :: 0 <= i < |log| && log[i].RegisterSent? && log[i].address == step.address && log[i].msgId == step.msgId
  }

  /** A good run in which every REGACK does. */
  ghost predicate EchoingRun(s: Sys, steps: seq<Step>) {
    && OwnedRun(s, steps)
    && (steps != [] ==>
          var before := steps[..|steps| - 1];
          EchoingRun(s, before) && Echoes(Run(s, before).log, steps[|steps| - 1]))
  }

  /** A REGACK that echoes its REGISTER is not taken. */
  lemma EchoIsNotTaken(s: Sys, step: Step)
    requires Inv(s) && Unnumbered(s) && Echoes(s.log, step)
    ensures !Takes(s, step)
  {
    hide Sound;
    if step.Regack? {
      RememberedByEntry(s, step.address);
    }
  }

  /** A slot that awaits anything, a REGACK included, stays so and is sent no message and no REGISTER, over every run
      of clients that answer under the ids they were sent, until a CONNECT ends in that slot. */
  lemma {:induction false} BusyUntilConnect(s: Sys, steps: seq<Step>, n: nat)
    requires Inv(s) && Owned(s.db) && Unnumbered(s) && EchoingRun(s, steps) && Busy(s.db, n)
    requires NotConnected(s.log, Run(s, steps).log, n)
    ensures Busy(Run(s, steps).db, n) && NothingFor(s.log, Run(s, steps).log, n)
  {
    hide Inv, Owned, Do, MakesHole, OwnAddress, NotConnected, NothingFor, Extends, Takes, Unnumbered, Echoes;
    if steps == [] {
      OneEvent(s.log, s.log, RegackTaken(0), n);
    } else {
      var before, step := steps[..|steps| - 1], steps[|steps| - 1];
      var t := Run(s, before);
      OwnedRunKeeps(s, before);
      EverythingUnderOne(s, before);
      RunLog(s, before);
      StepLog(t, step);
      EarlierNotConnected(s.log, t.log, Do(t, step).log, n);
      BusyUntilConnect(s, before, n);
      EchoIsNotTaken(t, step);
      StepStalls(t, step, n);
      NothingChain(s.log, t.log, Do(t, step).log, n);
    }
  }
}
