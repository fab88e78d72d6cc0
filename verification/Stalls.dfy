/** Clients that are never sent anything again: only a CONNECT, or a REGACK that is taken, makes them idle. */
module Stalls {
  import opened Bytes
  import opened Store
  import opened Gateway
  import opened Soundness
  import opened Operations
  import opened Unsubscribing
  import opened Effects
  import opened Visits
  import opened Ownership
  import opened InFlight
  import Delivery

  /** The slot awaits something, or is not in use. */
  ghost predicate Busy(d: Db, n: nat) {
    n < |d.registry| && d.registry[n].await != PINGREQ
  }

  /** The slot awaits a will, a PUBREL or a PUBACK, or is not in use. */
  ghost predicate Stalled(d: Db, n: nat) {
    Busy(d, n) && d.registry[n].await != REGACK
  }

  /** The slot is busy as before, or with something the message handler awaits, or no longer in use. */
  ghost predicate StaysBusy(d: Db, e: Db, n: nat) {
    && n < |d.registry| && n < |e.registry|
    && e.registry[n].await in {d.registry[n].await, NONE, WILLTOPIC, WILLMSG, PUBREL}
  }

  /** The REGACK is taken: it is awaited, under that message id, and its code is ACCEPTED or CONGESTION. */
  ghost predicate Takes(s: Sys, step: Step) {
    && step.Regack?
    && var d := StartByAddress(s.db, step.address);
       Ready(d) && d.entry.await == REGACK && d.entry.awaitId == step.msgId && step.code in {0, 1}
  }

  /** The event sends the client of a slot a message or the REGISTER for one. */
  ghost predicate SentTo(e: Event, n: nat) { (e.RegisterSent? || e.PublishSent?) && e.slot == n }

  /** The log has grown by events that are neither CONNECTs of nor messages to the slot. */
  ghost predicate NothingFor(log: seq<Event>, after: seq<Event>, n: nat) {
    |log| <= |after| && after[..|log|] == log
    && forall i | |log| <= i < |after| :: !SentTo(after[i], n) && after[i] != Connected(n)
  }

  /** No CONNECT has ended in the slot. */
  ghost predicate NotConnected(log: seq<Event>, after: seq<Event>, n: nat) {
    forall i | |log| <= i < |after| :: after[i] != Connected(n)
  }

  lemma NothingChain(a: seq<Event>, b: seq<Event>, c: seq<Event>, n: nat)
    requires NothingFor(a, b, n) && NothingFor(b, c, n)
    ensures NothingFor(a, c, n)
  {
    assert c[..|a|] == b[..|a|];
    forall i | |a| <= i < |b| ensures c[i] == b[i] {
      assert c[i] == c[..|b|][i];
    }
  }

  lemma OneEvent(log: seq<Event>, after: seq<Event>, e: Event, n: nat)
    requires (after == log || after == log + [e]) && !SentTo(e, n) && e != Connected(n)
    ensures NothingFor(log, after, n)
  {
  }

  // Visits

  /** Whatever is sent goes to the transaction's client. */
  lemma SendSlot(s: Sys, status: Status, address: nat, garbage: bool, n: nat)
    requires StartByAddress(s.db, address).entry.fileNumber != n
    ensures NothingFor(s.log, HandlePublishes(s, status, address, garbage).log, n)
  {
    hide SendNext, HasPublishes, StartByAddress;
    var d := StartByAddress(s.db, address);
    NextSlot(s, d, address, NextPublish(Mine(d).queue), garbage, n);
  }

  lemma NextSlot(s: Sys, d: Db, address: nat, next: Publish, garbage: bool, n: nat)
    requires d.entry.fileNumber != n
    ensures NothingFor(s.log, SendNext(s, d, address, next, garbage).log, n)
  {
    hide SetAwait, SetAwaitId, RemovePublish, SetPublishMsgId, IsTopicKnown, GetTopicName;
    ClientOfAnswer(d, next.topicId, garbage);
  }

  lemma ClientOfAnswer(d: Db, id: nat, garbage: bool)
    ensures IsTopicKnown(d, id, garbage).0.entry == d.entry
  {
  }

  lemma AnswerPingQuiet(s: Sys, status: Status, address: nat, n: nat)
    ensures NothingFor(s.log, AnswerPing(s, status, address).log, n)
  {
    hide SetStatus, HasPublishes, StartByAddress;
  }

  lemma TimeoutQuiet(s: Sys, row: Client, elapsed: nat, n: nat)
    requires Inv(s) && (row.status in {ACTIVE, ASLEEP, AWAKE} ==> row.address != 0 && row.id != "")
    ensures NothingFor(s.log, HandleTimeout(s, row, elapsed).log, n)
  {
    hide Inv, Sound, SetTimeout, SetStatus, Expire, Tolerance;
    if row.status in {ACTIVE, ASLEEP, AWAKE} {
      var timed, lost := TimeoutStates(s, row, elapsed);
      ExpireQuiet(s.(db := lost), row.id, n);
    }
  }

  lemma ExpireQuiet(s: Sys, id: ClientId, n: nat)
    requires Sound(s.db) && id != ""
    ensures NothingFor(s.log, Expire(s, id).log, n)
  {
    hide Sound, DropClient;
    if Ready(s.db) && Mine(s.db).will.Some? {
      DropClientKeeps(s.(log := s.log + [WillPublished(s.db.entry.fileNumber, Mine(s.db).will.value)]), id);
    }
  }

  /** A visit to another client sends this one nothing, and neither does a visit to it. */
  lemma VisitQuiet(s: Sys, k: nat, heartbeat: Option<nat>, garbage: bool, n: nat)
    requires Inv(s) && Owned(s.db) && k < |s.db.registry| && s.db.registry[k].id != ""
    requires k == n ==> Busy(s.db, n)
    ensures NothingFor(s.log, Visit(s, k, heartbeat, garbage).log, n)
  {
    hide Inv, Sound, HandlePublishes, AnswerPing, HandleTimeout, NothingFor, DistinctAddresses, OnlyAt, Kept;
    var row := s.db.registry[k];
    LiveRow(s, k);
    OwnedDistinct(s.db);
    OwnRow(s, k);
    if k == n {
      BusySend(s, k, garbage);
      var t := HandlePublishes(s, row.status, row.address, garbage);
      AnswerPingQuiet(t, row.status, row.address, n);
    } else {
      SendSlot(s, row.status, row.address, garbage, n);
      var t := HandlePublishes(s, row.status, row.address, garbage);
      AnswerPingQuiet(t, row.status, row.address, n);
    }
    var t := HandlePublishes(s, row.status, row.address, garbage);
    var u := AnswerPing(t, row.status, row.address);
    NothingChain(s.log, t.log, u.log, n);
    ServedServes(s, k, garbage);
    if heartbeat.Some? {
      TimeoutQuiet(u, row, heartbeat.value, n);
      NothingChain(s.log, u.log, HandleTimeout(u, row, heartbeat.value).log, n);
    }
  }

  /** A busy client is not sent anything. */
  lemma BusySend(s: Sys, n: nat, garbage: bool)
    requires Inv(s) && DistinctAddresses(s.db.registry) && Busy(s.db, n) && s.db.registry[n].id != ""
    ensures var t := HandlePublishes(s, s.db.registry[n].status, s.db.registry[n].address, garbage);
            NothingFor(s.log, t.log, n) && t.db.registry == s.db.registry
  {
    hide Inv, Sound, SendNext, HasPublishes, DistinctAddresses;
    OwnRow(s, n);
  }

  /** A visit leaves a busy slot busy. */
  lemma VisitStalls(s: Sys, k: nat, heartbeat: Option<nat>, garbage: bool, n: nat)
    requires Inv(s) && Owned(s.db) && Busy(s.db, n) && k < |s.db.registry| && s.db.registry[k].id != ""
    ensures StaysBusy(s.db, Visit(s, k, heartbeat, garbage).db, n)
  {
    hide Inv, HandlePublishes, AnswerPing, HandleTimeout, Owned, Kept;
    VisitOnly(s, k, heartbeat, garbage);
    if k == n {
      OwnedDistinct(s.db);
      BusySend(s, n, garbage);
      Delivery.PingrespIff(s, n, garbage);
      ServedServes(s, n, garbage);
      ServedFacts(s.db, Served(s, n, garbage).db, n);
      if heartbeat.Some? {
        HandleTimeoutAt(Served(s, n, garbage), n, s.db.registry[n], heartbeat.value);
      }
    }
  }

  // Steps and runs

  lemma ConnectStalls(s: Sys, id: string, duration: nat, clean: bool, address: nat, n: nat)
    requires Inv(s) && Busy(s.db, n) && id != "" && address != 0
    requires NotConnected(s.log, Gateway.AddClient(s, id, duration, clean, address).log, n)
    ensures var t := Gateway.AddClient(s, id, duration, clean, address);
            StaysBusy(s.db, t.db, n) && NothingFor(s.log, t.log, n)
  {
    hide Inv, Gateway.AddClient, ConnectSlot, FilesFor;
    ConnectEffect(s, id, duration, clean, address);
    var t := Gateway.AddClient(s, id, duration, clean, address);
    if t.log != s.log {
      assert t.log[|s.log|] == Connected(ConnectSlot(s.db.registry, id, clean));
    }
  }

  lemma AwaitStalls(s: Sys, address: nat, await: Await, n: nat)
    requires Inv(s) && address != 0 && await in {WILLTOPIC, WILLMSG, PUBREL} && Busy(s.db, n)
    ensures StaysBusy(s.db, AwaitMessage(s, address, await).db, n)
  {
    hide Sound, SetAwait;
    Opened(s, address);
    if Ready(StartByAddress(s.db, address)) {
      AwaitWritten(StartByAddress(s.db, address), await);
    } else {
      NotReadyAwait(StartByAddress(s.db, address), await);
    }
  }

  lemma NotReadyAwait(d: Db, await: Await)
    requires !Ready(d)
    ensures SetAwait(d, await) == d && AwaitType(d) == PINGREQ
  {
  }

  lemma RegackStalls(s: Sys, address: nat, msgId: nat, code: nat, n: nat)
    requires Inv(s) && address != 0 && Busy(s.db, n)
    requires Stalled(s.db, n) || !Takes(s, Regack(address, msgId, code))
    ensures StaysBusy(s.db, RegackArrived(s, address, msgId, code).db, n)
  {
    hide Sound, SetAwait;
    var d := StartByAddress(s.db, address);
    Opened(s, address);
    if Ready(d) {
      AwaitWritten(d, PINGREQ);
    } else {
      NotReadyAwait(d, PINGREQ);
    }
  }

  lemma QuietStalls(s: Sys, step: Step, n: nat)
    requires Inv(s) && Legal(step) && Quiet(step) && Busy(s.db, n) && (Stalled(s.db, n) || !Takes(s, step))
    ensures StaysBusy(s.db, Do(s, step).db, n) && NothingFor(s.log, Do(s, step).log, n)
  {
    hide Inv, Kept, Do, Takes;
    QuietEvents(s, step, n);
    match step {
      case AwaitStep(address, await) =>
        AwaitStalls(s, address, await, n);
        StepIs(s, step);
      case Regack(address, msgId, code) =>
        RegackStalls(s, address, msgId, code, n);
        StepIs(s, step);
      case _ => QuietKept(s, step);
    }
  }

  lemma StepIs(s: Sys, step: Step)
    ensures step.AwaitStep? ==> Do(s, step) == AwaitMessage(s, step.address, step.await)
    ensures step.Regack? ==> Do(s, step) == RegackArrived(s, step.address, step.msgId, step.code)
  {
    hide AwaitMessage, RegackArrived;
  }

  lemma QuietEvents(s: Sys, step: Step, n: nat)
    requires Quiet(step)
    ensures NothingFor(s.log, Do(s, step).log, n)
  {
    hide Resolve, Enter, StartByAddress;
  }

  lemma StepStalls(s: Sys, step: Step, n: nat)
    requires Inv(s) && Owned(s.db) && Legal(step) && Busy(s.db, n) && (Stalled(s.db, n) || !Takes(s, step))
    requires NotConnected(s.log, Do(s, step).log, n)
    ensures StaysBusy(s.db, Do(s, step).db, n) && NothingFor(s.log, Do(s, step).log, n)
  {
    hide Inv, Owned, Gateway.AddClient, Visit, NothingFor, NotConnected, Busy, Takes;
    match step {
      case Connect(id, duration, clean, address) => ConnectStalls(s, id, duration, clean, address, n);
      case VisitStep(k, heartbeat, garbage) =>
        if k < |s.db.registry| && s.db.registry[k].id != "" {
          VisitQuiet(s, k, heartbeat, garbage, n);
          VisitStalls(s, k, heartbeat, garbage, n);
        } else {
          EmptyVisit(s, k, heartbeat, garbage);
          OneEvent(s.log, Do(s, step).log, RegackTaken(0), n);
          SameBusy(s.db, Do(s, step).db, n);
        }
      case _ => QuietStalls(s, step, n);
    }
  }

  lemma SameBusy(d: Db, e: Db, n: nat)
    requires Busy(d, n) && e.registry == d.registry
    ensures StaysBusy(d, e, n)
  {
  }

  ghost predicate Extends(log: seq<Event>, after: seq<Event>) {
    |log| <= |after| && after[..|log|] == log
  }

  lemma NothingExtends(log: seq<Event>, after: seq<Event>, n: nat)
    requires NothingFor(log, after, n)
    ensures Extends(log, after)
  {
  }

  lemma StepLog(s: Sys, step: Step)
    requires Inv(s) && Owned(s.db) && Legal(step)
    ensures Extends(s.log, Do(s, step).log)
  {
    hide Inv, Owned, Gateway.AddClient, Visit, NothingFor, ConnectSlot, Seat, FilesFor, RowsFor;
    match step {
      case Connect(id, duration, clean, address) => ConnectEffect(s, id, duration, clean, address);
      case VisitStep(k, heartbeat, garbage) =>
        if k < |s.db.registry| && s.db.registry[k].id != "" {
          VisitQuiet(s, k, heartbeat, garbage, k + 1);
          NothingExtends(s.log, Do(s, step).log, k + 1);
        } else {
          EmptyVisit(s, k, heartbeat, garbage);
        }
      case _ =>
        QuietEvents(s, step, 0);
        NothingExtends(s.log, Do(s, step).log, 0);
    }
  }

  lemma {:induction false} RunLog(s: Sys, steps: seq<Step>)
    requires Inv(s) && Owned(s.db) && OwnedRun(s, steps)
    ensures Extends(s.log, Run(s, steps).log)
  {
    hide Inv, Owned, Do, MakesHole, OwnAddress;
    if steps != [] {
      var before, step := steps[..|steps| - 1], steps[|steps| - 1];
      OwnedRunKeeps(s, before);
      RunLog(s, before);
      StepLog(Run(s, before), step);
      assert Do(Run(s, before), step).log[..|s.log|] == Run(s, before).log[..|s.log|];
    }
  }

  lemma EarlierNotConnected(log: seq<Event>, middle: seq<Event>, after: seq<Event>, n: nat)
    requires Extends(log, middle) && Extends(middle, after) && NotConnected(log, after, n)
    ensures NotConnected(log, middle, n) && NotConnected(middle, after, n)
  {
    forall i | |log| <= i < |middle| ensures middle[i] != Connected(n) {
      assert middle[i] == after[..|middle|][i];
    }
  }

  /** A slot that awaits a will, a PUBREL or a PUBACK stays so, and its client is sent no message and no REGISTER, over
      every good run until a CONNECT ends in that slot: no acknowledgement brings the idle state back. */
  lemma {:induction false} StalledUntilConnect(s: Sys, steps: seq<Step>, n: nat)
    requires Inv(s) && Owned(s.db) && OwnedRun(s, steps) && Stalled(s.db, n)
    requires NotConnected(s.log, Run(s, steps).log, n)
    ensures Stalled(Run(s, steps).db, n) && NothingFor(s.log, Run(s, steps).log, n)
  {
    hide Inv, Owned, Do, MakesHole, OwnAddress, NotConnected, NothingFor, Extends, Takes;
    if steps == [] {
      OneEvent(s.log, s.log, RegackTaken(0), n);
    } else {
      var before, step := steps[..|steps| - 1], steps[|steps| - 1];
      var t := Run(s, before);
      OwnedRunKeeps(s, before);
      RunLog(s, before);
      StepLog(t, step);
      EarlierNotConnected(s.log, t.log, Do(t, step).log, n);
      StalledUntilConnect(s, before, n);
      StepStalls(t, step, n);
      NothingChain(s.log, t.log, Do(t, step).log, n);
    }
  }
}
