/** One visit sends the next message, and a PINGRESP when the queue of an awake client is empty. */
module Delivery {
  import opened Bytes
  import opened Store
  import opened Gateway
  import opened Soundness
  import opened Operations
  import opened Conservation
  import opened Effects
  import opened Visits
  import opened Ownership
  import opened Queue
  import opened Draining

  ghost function QueueAt(d: Db, n: nat): seq<Publish> { FilesAt(d.files, n).queue }

  /** The row of a live client. */
  ghost predicate Live(s: Sys, n: nat) {
    Inv(s) && Owned(s.db) && n < |s.db.registry| && s.db.registry[n].id != ""
  }

  /** At most one event more, and it is no PINGRESP. */
  ghost predicate NoPingresp(log: seq<Event>, after: seq<Event>) {
    after == log || (|after| == |log| + 1 && after[..|log|] == log && !after[|log|].PingRespSent?)
  }

  /** Sending adds at most one event, and it is no PINGRESP. */
  lemma SendLogs(s: Sys, status: Status, address: nat, garbage: bool)
    ensures var t := HandlePublishes(s, status, address, garbage);
            NoPingresp(s.log, t.log)
  {
    hide SetAwait, SetAwaitId, RemovePublish, SetPublishMsgId, HasPublishes, IsTopicKnown, GetTopicName;
  }

  /** After the sending part of a visit: a PINGRESP is sent exactly to an awake client whose queue is then empty, and
      it falls asleep. */
  lemma PingrespIff(s: Sys, n: nat, garbage: bool)
    requires Live(s, n)
    ensures var row := s.db.registry[n];
            var t := HandlePublishes(s, row.status, row.address, garbage);
            var u := Served(s, n, garbage);
            && u.db.files == t.db.files && n < |t.db.registry| == |u.db.registry|
            && (if row.status == AWAKE && Outbox(QueueAt(t.db, n)) == [] then
                  && u.log == t.log + [PingRespSent(n, row.address)]
                  && u.db.registry == t.db.registry[n := t.db.registry[n].(status := ASLEEP)]
                else u.log == t.log && u.db.registry == t.db.registry)
  {
    hide Inv, HandlePublishes, Serves, DistinctAddresses, SetStatus, Outbox, Sound;
    var row := s.db.registry[n];
    LiveRow(s, n);
    HandlePublishesKeeps(s, row.status, row.address, garbage);
    HandlePublishesServes(s, n, garbage);
    var t := HandlePublishes(s, row.status, row.address, garbage);
    ServedRow(s.db, t.db, n);
    OwnRow(t, n);
    var d := StartByAddress(t.db, row.address);
    StatusWritten(d, ASLEEP);
  }

  /** Every PINGRESP a run sends is sent by a visit to an awake client, finds its queue empty and leaves it asleep. */
  lemma PingrespMeansEmpty(s: Sys, step: Step)
    requires Inv(s) && Owned(s.db) && Legal(step)
    ensures forall i | |s.log| <= i < |Do(s, step).log| && Do(s, step).log[i].PingRespSent? ::
              step.VisitStep? && Live(s, step.n) && AnsweredEmpty(s, step.n, step.garbage, Do(s, step).log[i])
  {
    hide Inv, Owned, Gateway.AddClient, Visit, RegackArrived, PubackArrives, AnsweredEmpty;
    match step {
      case Connect(id, duration, clean, address) =>
        ConnectEffect(s, id, duration, clean, address);
      case VisitStep(n, heartbeat, garbage) =>
        if n < |s.db.registry| && s.db.registry[n].id != "" {
          VisitPings(s, n, heartbeat, garbage);
        } else {
          EmptyVisit(s, n, heartbeat, garbage);
        }
      case _ => NoPings(s, step);
    }
  }

  /** The event is the PINGRESP to row n, which was awake, has nothing queued any more and is asleep now. */
  ghost predicate AnsweredEmpty(s: Sys, n: nat, garbage: bool, e: Event)
    requires Live(s, n)
  {
    var served := Served(s, n, garbage).db;
    && e == PingRespSent(n, s.db.registry[n].address) && s.db.registry[n].status == AWAKE
    && n < |served.registry| && served.registry[n].status == ASLEEP && Outbox(QueueAt(served, n)) == []
  }

  lemma NoPings(s: Sys, step: Step)
    requires Quiet(step)
    ensures NoPingresp(s.log, Do(s, step).log)
  {
    hide Resolve, Enter;
  }

  lemma TimeoutLogs(s: Sys, row: Client, elapsed: nat)
    requires Inv(s) && (row.status in {ACTIVE, ASLEEP, AWAKE} ==> row.address != 0 && row.id != "")
    ensures var t := HandleTimeout(s, row, elapsed);
            NoPingresp(s.log, t.log)
  {
    hide Inv, Sound, SetTimeout, SetStatus, Expire, Tolerance;
    if row.status in {ACTIVE, ASLEEP, AWAKE} {
      var timed, lost := TimeoutStates(s, row, elapsed);
      ExpireLogs(s.(db := lost), row.id);
    }
  }

  lemma ExpireLogs(s: Sys, id: ClientId)
    requires Sound(s.db) && id != ""
    ensures var t := Expire(s, id); NoPingresp(s.log, t.log)
  {
    hide Sound, DropClient;
    if Ready(s.db) && Mine(s.db).will.Some? {
      DropClientKeeps(s.(log := s.log + [WillPublished(s.db.entry.fileNumber, Mine(s.db).will.value)]), id);
    }
  }

  lemma VisitPings(s: Sys, n: nat, heartbeat: Option<nat>, garbage: bool)
    requires Live(s, n)
    ensures var t := Visit(s, n, heartbeat, garbage);
            forall i | |s.log| <= i < |t.log| && t.log[i].PingRespSent? :: AnsweredEmpty(s, n, garbage, t.log[i])
  {
    hide Inv, Owned, Visit, Served, HandlePublishes, HandleTimeout, Outbox, OnlyAt, Kept, DistinctAddresses;
    var row := s.db.registry[n];
    VisitIsServed(s, n, heartbeat, garbage);
    LiveRow(s, n);
    OwnedDistinct(s.db);
    SendLogs(s, row.status, row.address, garbage);
    PingrespIff(s, n, garbage);
    ServedServes(s, n, garbage);
    if heartbeat.Some? {
      TimeoutLogs(Served(s, n, garbage), row, heartbeat.value);
    }
  }

  lemma VisitIsServed(s: Sys, n: nat, heartbeat: Option<nat>, garbage: bool)
    ensures Visit(s, n, heartbeat, garbage) ==
            if heartbeat.None? then Served(s, n, garbage)
            else HandleTimeout(Served(s, n, garbage), NthClient(s.db, n), heartbeat.value)
  {
    hide HandlePublishes, AnswerPing, HandleTimeout;
  }

  // Draining a queue

  /** An idle client that can be sent messages, with QoS 0 ones queued. */
  ghost predicate Drainable(s: Sys, n: nat) {
    && Live(s, n)
    && s.db.registry[n].status in {ACTIVE, AWAKE} && s.db.registry[n].await == PINGREQ
    && QueueOk(FilesAt(s.db.files, n))
    && forall p | p in Outbox(QueueAt(s.db, n)) :: p.qos == 0
  }

  /** One visit sends the next message; the last one to an awake client is followed by the PINGRESP. */
  lemma OneVisit(s: Sys, n: nat, garbage: bool)
    requires Drainable(s, n)
    ensures var row, box := s.db.registry[n], Outbox(QueueAt(s.db, n));
            var t := Visit(s, n, None, garbage);
            var rest := if box == [] then [] else box[1..];
            var asleep := row.status == AWAKE && rest == [];
            && Live(t, n) && Outbox(QueueAt(t.db, n)) == rest && QueueOk(FilesAt(t.db.files, n))
            && t.db.registry[n] == row.(status := if asleep then ASLEEP else row.status)
            && t.log == s.log + (if box == [] then [] else [PublishSent(n, row.address, 0, box[0])])
                              + (if asleep then [PingRespSent(n, row.address)] else [])
  {
    hide Inv, Owned, HandlePublishes, AnswerPing, Outbox, QueueOk, OnlyAt;
    var row := s.db.registry[n];
    var t := HandlePublishes(s, row.status, row.address, garbage);
    VisitOnly(s, n, None, garbage);
    OneSend(s, n, garbage);
    PingrespIff(s, n, garbage);
    OnlyAtSize(s.db, Visit(s, n, None, garbage).db, n);
  }

  lemma OnlyAtSize(d: Db, e: Db, n: nat)
    requires OnlyAt(d, e, n)
    ensures |e.registry| == |d.registry|
  {
  }

  lemma OneSend(s: Sys, n: nat, garbage: bool)
    requires Drainable(s, n)
    ensures var row, box := s.db.registry[n], Outbox(QueueAt(s.db, n));
            var t := HandlePublishes(s, row.status, row.address, garbage);
            && t.db.registry == s.db.registry && QueueOk(FilesAt(t.db.files, n))
            && Outbox(QueueAt(t.db, n)) == (if box == [] then [] else box[1..])
            && t.log == s.log + (if box == [] then [] else [PublishSent(n, row.address, 0, box[0])])
  {
    hide Inv, Sound, DistinctAddresses, QueueOk, SendNext, Outbox, NextPublish;
    OwnedDistinct(s.db);
    OwnRow(s, n);
    var d := StartByAddress(s.db, s.db.registry[n].address);
    if Outbox(QueueAt(s.db, n)) != [] {
      assert Outbox(QueueAt(s.db, n))[0] in Outbox(QueueAt(s.db, n));
      FirstSent(s, d, s.db.registry[n].address, garbage);
    }
  }

  /** A QoS 0 message that is next goes out and leaves the queue. */
  lemma FirstSent(s: Sys, d: Db, address: nat, garbage: bool)
    requires Sound(d) && Ready(d) && QueueOk(Mine(d))
    requires Outbox(Mine(d).queue) != [] && Outbox(Mine(d).queue)[0].qos == 0
    ensures var n, box := d.entry.fileNumber, Outbox(Mine(d).queue);
            var t := SendNext(s, d, address, NextPublish(Mine(d).queue), garbage);
            && t.db.registry == d.registry && QueueOk(FilesAt(t.db.files, n)) && Outbox(QueueAt(t.db, n)) == box[1..]
            && t.log == s.log + [PublishSent(n, address, 0, box[0])]
  {
    hide Sound, QueueOk, SendNext, Outbox, NextPublish;
    NextIsSendable(Mine(d), 0);
    SendNextEffect(s, d, address, garbage);
  }

  ghost function Sends(n: nat, address: nat, box: seq<Publish>): seq<Event> {
    seq(|box|, i requires 0 <= i < |box| => PublishSent(n, address, 0, box[i]))
  }

  lemma StateEffect(s: Sys, n: nat, status: Status)
    requires Live(s, n) && status in {DISCONNECTED, ASLEEP, AWAKE} && (status == ASLEEP ==> s.online)
    ensures var t := SetState(s, s.db.registry[n].address, status);
            && Live(t, n) && t.db.files == s.db.files && t.log == s.log
            && t.db.registry == s.db.registry[n := s.db.registry[n].(status := status)]
  {
    hide Inv, Owned, Sound, DistinctAddresses, SetStatus;
    OwnedDistinct(s.db);
    OwnRow(s, n);
    LiveRow(s, n);
    var step := SetStateStep(s.db.registry[n].address, status);
    StatusWritten(StartByAddress(s.db, s.db.registry[n].address), status);
    StatusKeeps(StartByAddress(s.db, s.db.registry[n].address), status);
    StepKeepsIff(s, step);
    OwnedStep(s, step);
  }
}
