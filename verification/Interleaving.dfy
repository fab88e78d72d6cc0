/** Delivery to one client while the run goes on with other clients in between. */
module Interleaving {
  import opened Bytes
  import opened Store
  import opened Gateway
  import opened Soundness
  import opened Operations
  import opened Unsubscribing
  import opened Effects
  import opened Visits
  import opened Ownership
  import opened Queue
  import opened Draining
  import opened Delivery
  import Stalls
  import Timeouts

  // PINGRESPs of whole runs

  /** Every PINGRESP in the log of a run was sent by one of its visits to an awake client, found its queue empty and
      left it asleep (section 6.14 of MQTT-SN v1.2). */
  lemma {:induction false} EveryPingrespMeansEmpty(s: Sys, steps: seq<Step>, i: nat) returns (j: nat)
    requires Inv(s) && Owned(s.db) && OwnedRun(s, steps)
    requires |s.log| <= i < |Run(s, steps).log| && Run(s, steps).log[i].PingRespSent?
    ensures j < |steps| && steps[j].VisitStep? && Live(Run(s, steps[..j]), steps[j].n)
    ensures AnsweredEmpty(Run(s, steps[..j]), steps[j].n, steps[j].garbage, Run(s, steps).log[i])
  {
    hide Inv, Owned, Do, MakesHole, OwnAddress, AnsweredEmpty;
    var before, step := steps[..|steps| - 1], steps[|steps| - 1];
    OwnedRunKeeps(s, before);
    var t := Run(s, before);
    Stalls.RunLog(s, before);
    Stalls.StepLog(t, step);
    PingrespMeansEmpty(t, step);
    if i < |t.log| {
      assert Do(t, step).log[..|t.log|][i] == Do(t, step).log[i];
      j := EveryPingrespMeansEmpty(s, before, i);
      assert before[..j] == steps[..j];
    } else {
      j := |before|;
    }
  }

  // Steps that are not about a client

  /** The event goes to the client of a slot. */
  ghost predicate ToClient(e: Event, n: nat) {
    Stalls.SentTo(e, n) || (e.PingRespSent? && e.slot == n)
  }

  /** What the client of a slot is sent, in order. */
  ghost function About(log: seq<Event>, n: nat): seq<Event> {
    if log == [] then []
    else About(log[..|log| - 1], n) + if ToClient(log[|log| - 1], n) then [log[|log| - 1]] else []
  }

  lemma AboutSnoc(log: seq<Event>, e: Event, n: nat)
    ensures About(log + [e], n) == About(log, n) + if ToClient(e, n) then [e] else []
  {
    assert (log + [e])[..|log|] == log;
  }

  /** The log has grown by events that go to others. */
  ghost predicate ForOthers(log: seq<Event>, after: seq<Event>, n: nat) {
    && |log| <= |after| && after[..|log|] == log
    && forall i | |log| <= i < |after| :: !ToClient(after[i], n)
  }

  lemma {:induction false} AboutOthers(log: seq<Event>, after: seq<Event>, n: nat)
    requires ForOthers(log, after, n)
    ensures About(after, n) == About(log, n)
    decreases |after|
  {
    if |after| > |log| {
      var less := after[..|after| - 1];
      assert less[..|log|] == log;
      AboutOthers(log, less, n);
    } else {
      assert after == log;
    }
  }

  lemma OthersFrom(log: seq<Event>, after: seq<Event>, n: nat)
    requires Stalls.NothingFor(log, after, n) && NoPingresp(log, after)
    ensures ForOthers(log, after, n)
  {
  }

  lemma OthersChain(a: seq<Event>, b: seq<Event>, c: seq<Event>, n: nat)
    requires ForOthers(a, b, n) && ForOthers(b, c, n)
    ensures ForOthers(a, c, n)
  {
    assert c[..|a|] == b[..|a|];
    forall i | |a| <= i < |b| ensures c[i] == b[i] {
      assert c[i] == c[..|b|][i];
    }
  }

  /** The client of row n, its files and its messages are as they were. */
  ghost predicate Untouched(s: Sys, t: Sys, n: nat) {
    && n < |s.db.registry| && n < |t.db.registry|
    && t.db.registry[n] == s.db.registry[n] && FilesAt(t.db.files, n) == FilesAt(s.db.files, n)
    && ForOthers(s.log, t.log, n)
  }

  /** The step is about other clients. */
  predicate Elsewhere(d: Db, step: Step, n: nat)
    requires n < |d.registry|
  {
    match step
    case Connect(id, _, _, _) => id != d.registry[n].id
    case VisitStep(k, _, _) => k != n
    case BrokerLink(_) => true
    case _ => step.address != d.registry[n].address
  }

  /** What an operation inside a transaction may touch: its client's row and files. */
  ghost predicate Confined(d: Db, e: Db) {
    && e.entry.fileNumber == d.entry.fileNumber && |e.registry| == |d.registry|
    && (forall m | 0 <= m < |d.registry| && (!Ready(d) || m != d.entry.fileNumber) :: e.registry[m] == d.registry[m])
    && (forall m: nat | !Ready(d) || m != d.entry.fileNumber :: FilesAt(e.files, m) == FilesAt(d.files, m))
  }

  lemma ConfinedSame(d: Db, e: Db)
    requires e.registry == d.registry && e.files == d.files && e.entry.fileNumber == d.entry.fileNumber
    ensures Confined(d, e)
  {
  }

  lemma ConfinedRow(d: Db)
    requires EntryOk(d)
    ensures forall await :: Confined(d, SetAwait(d, await))
    ensures forall status :: Confined(d, SetStatus(d, status))
  {
  }

  lemma ConfinedFiles(d: Db, f: Files)
    requires Ready(d)
    ensures Confined(d, SetMine(d, f))
  {
  }

  lemma ConfinedWill(d: Db)
    ensures forall topic, qos, retain :: Confined(d, SetWillTopic(d, topic, qos, retain))
    ensures forall message :: Confined(d, SetWillMessage(d, message))
    ensures Confined(d, DeleteWill(d))
  {
    hide Confined, SetMine;
    ConfinedSame(d, d);
    forall f: Files | Ready(d) ensures Confined(d, SetMine(d, f)) {
      ConfinedFiles(d, f);
    }
  }

  lemma ConfinedQueue(d: Db)
    ensures forall data, topicId, retain, qos :: Confined(d, AddPublish(d, data, topicId, retain, qos))
    ensures Ready(d) ==> forall queue :: Confined(d, SetMine(d, Mine(d).(queue := queue)))
  {
    hide Confined, SetMine, Enqueued;
    ConfinedSame(d, d);
    forall f: Files | Ready(d) ensures Confined(d, SetMine(d, f)) {
      ConfinedFiles(d, f);
    }
  }

  lemma ConfinedRegistration(d: Db, name: TopicName)
    ensures Confined(d, AddRegistration(d, name, 0).0)
  {
  }

  lemma ConfinedMine(d: Db, e: Db)
    requires Ready(d) && OnlyMine(d, e) && e.registry == d.registry && e.entry == d.entry
    ensures Confined(d, e)
  {
  }

  lemma ConfinedSubscribe(s: Sys, address: nat, topicId: nat, shortTopic: bool, qos: nat, accepted: bool)
      returns (e: Db)
    requires Inv(s) && address != 0 && s.online
    ensures var t := Gateway.AddSubscription(s, address, topicId, shortTopic, qos, accepted);
            && Confined(StartByAddress(s.db, address), e) && t.db.files == e.files && t.db.registry == e.registry
            && t.log == s.log
  {
    hide Sound, Resolve, Enter, Confined, OnlyMine, HoldsTopic, CountOf;
    e := StartByAddress(s.db, address);
    var d := e;
    Opened(s, address);
    ConfinedSame(d, d);
    if Ready(d) {
      ResolveKeeps(d, topicId, shortTopic);
      var (resolved, name, id) := Resolve(d, topicId, shortTopic);
      e := resolved;
      ConfinedMine(d, resolved);
      if name.Some? {
        EnterKeeps(resolved, name.value, id, if qos >= 1 then 1 else 0);
        e := Enter(resolved, name.value, id, if qos >= 1 then 1 else 0).0;
        OnlyMineChain(d, resolved, e);
        ConfinedMine(d, e);
      }
    }
  }

  /** A transaction by another client's address leaves row n alone. */
  lemma ConfinedElsewhere(s: Sys, address: nat, e: Db, n: nat)
    requires Inv(s) && address != 0 && n < |s.db.registry| && s.db.registry[n].address != address
    requires Confined(StartByAddress(s.db, address), e)
    ensures n < |e.registry| && e.registry[n] == s.db.registry[n] && FilesAt(e.files, n) == FilesAt(s.db.files, n)
  {
    hide Sound, TablesOk;
    Opened(s, address);
    StartByAddressKeeps(s.db, address);
    SoundEntry(StartByAddress(s.db, address));
  }

  lemma QuietElsewhere(s: Sys, step: Step, n: nat)
    requires Inv(s) && Legal(step) && Quiet(step) && n < |s.db.registry| && Elsewhere(s.db, step, n)
    ensures Untouched(s, Do(s, step), n)
  {
    hide Inv, Confined, Gateway.AddSubscription, StartByAddress, AddRegistration, SetAwait, SetStatus, SetWillTopic,
      SetWillMessage, DeleteWill, AddPublish, SetMine, Mine;
    Stalls.QuietEvents(s, step, n);
    NoPings(s, step);
    OthersFrom(s.log, Do(s, step).log, n);
    if step.Subscribe? {
      if s.online {
        var e := ConfinedSubscribe(s, step.address, step.topicId, step.shortTopic, step.qos, step.accepted);
        ConfinedElsewhere(s, step.address, e, n);
      } else {
        OfflineSubscribe(s, step);
      }
    } else if Unsubscribes(step) {
      UnsubscribeElsewhere(s, step, n);
    } else if !step.BrokerLink? {
      QuietTransaction(s, step, n);
    }
  }

  lemma UnsubscribeElsewhere(s: Sys, step: Step, n: nat)
    requires Inv(s) && Legal(step) && Unsubscribes(step) && n < |s.db.registry| && Elsewhere(s.db, step, n)
    ensures RowAndFilesKept(s.db, Do(s, step).db, n)
  {
    hide Inv, Do, Confined, StartByAddress;
    var d, t := StartByAddress(s.db, step.address), Do(s, step);
    UnsubscribeTouches(s, step);
    var e := d.(files := t.db.files);
    if t.db.files == s.db.files {
      ConfinedSame(d, e);
    } else {
      ConfinedFiles(d, FilesAt(t.db.files, d.entry.fileNumber));
    }
    ConfinedElsewhere(s, step.address, e, n);
  }

  lemma OfflineSubscribe(s: Sys, step: Step)
    requires step.Subscribe? && !s.online
    ensures Do(s, step) == s
  {
  }

  ghost predicate RowAndFilesKept(d: Db, e: Db, n: nat) {
    && n < |d.registry| && n < |e.registry|
    && e.registry[n] == d.registry[n] && FilesAt(e.files, n) == FilesAt(d.files, n)
  }

  lemma RowAndFilesElsewhere(s: Sys, address: nat, e: Db, n: nat)
    requires Inv(s) && address != 0 && n < |s.db.registry| && s.db.registry[n].address != address
    requires Confined(StartByAddress(s.db, address), e)
    ensures RowAndFilesKept(s.db, e, n)
  {
    hide Inv, Confined, StartByAddress;
    ConfinedElsewhere(s, address, e, n);
  }

  lemma RowStepKept(s: Sys, step: Step, n: nat)
    requires step.AwaitStep? || step.SetStateStep? || step.Regack?
    requires EntryOk(StartByAddress(s.db, step.address)) && n < |s.db.registry|
    requires forall e | Confined(StartByAddress(s.db, step.address), e) :: RowAndFilesKept(s.db, e, n)
    ensures RowAndFilesKept(s.db, Do(s, step).db, n)
  {
    hide Confined, EntryOk, StartByAddress, SetAwait, SetStatus;
    var d := StartByAddress(s.db, step.address);
    ConfinedSame(d, d);
    ConfinedRow(d);
  }

  lemma FileStepKept(s: Sys, step: Step, n: nat)
    requires step.Register? || step.BrokerPublish? || step.Puback? || step.WillTopicStep? || step.WillMessageStep? ||
             step.RemoveWillStep?
    requires n < |s.db.registry|
    requires forall e | Confined(StartByAddress(s.db, step.address), e) :: RowAndFilesKept(s.db, e, n)
    ensures RowAndFilesKept(s.db, Do(s, step).db, n)
  {
    hide Confined, StartByAddress, AddRegistration, SetWillTopic, SetWillMessage, DeleteWill, AddPublish, SetMine, Mine;
    var d := StartByAddress(s.db, step.address);
    ConfinedSame(d, d);
    match step {
      case Register(_, name) => ConfinedRegistration(d, name);
      case BrokerPublish(_, _, _, _) => ConfinedQueue(d);
      case Puback(_, _) => ConfinedQueue(d);
      case _ => ConfinedWill(d);
    }
  }

  lemma QuietTransaction(s: Sys, step: Step, n: nat)
    requires Inv(s) && Legal(step) && Quiet(step) && !step.BrokerLink? && !step.Subscribe? && !Unsubscribes(step)
    requires n < |s.db.registry| && Elsewhere(s.db, step, n)
    ensures RowAndFilesKept(s.db, Do(s, step).db, n)
  {
    hide Inv, Sound, Confined, RowAndFilesKept, EntryOk, Do;
    var d := StartByAddress(s.db, step.address);
    Opened(s, step.address);
    SoundEntry(d);
    forall e: Db | Confined(d, e) ensures RowAndFilesKept(s.db, e, n) {
      RowAndFilesElsewhere(s, step.address, e, n);
    }
    if step.AwaitStep? || step.SetStateStep? || step.Regack? {
      RowStepKept(s, step, n);
    } else {
      FileStepKept(s, step, n);
    }
  }

  lemma VisitElsewhere(s: Sys, k: nat, heartbeat: Option<nat>, garbage: bool, n: nat)
    requires Inv(s) && Owned(s.db) && k != n && n < |s.db.registry|
    ensures Untouched(s, Visit(s, k, heartbeat, garbage), n)
  {
    hide Inv, Owned, Served, Visit, HandlePublishes, HandleTimeout, ForOthers, Outbox, DistinctAddresses;
    if k < |s.db.registry| && s.db.registry[k].id != "" {
      var row := s.db.registry[k];
      VisitOnly(s, k, heartbeat, garbage);
      LiveRow(s, k);
      OwnedDistinct(s.db);
      OwnRow(s, k);
      Stalls.SendSlot(s, row.status, row.address, garbage, n);
      SendLogs(s, row.status, row.address, garbage);
      var t := HandlePublishes(s, row.status, row.address, garbage);
      OthersFrom(s.log, t.log, n);
      var u := Served(s, k, garbage);
      PingrespIff(s, k, garbage);
      OtherPing(t.log, u.log, PingRespSent(k, row.address), n);
      OthersChain(s.log, t.log, u.log, n);
      ServedServes(s, k, garbage);
      VisitIsServed(s, k, heartbeat, garbage);
      if heartbeat.Some? {
        var v := HandleTimeout(u, row, heartbeat.value);
        Stalls.TimeoutQuiet(u, row, heartbeat.value, n);
        TimeoutLogs(u, row, heartbeat.value);
        OthersFrom(u.log, v.log, n);
        OthersChain(s.log, u.log, v.log, n);
      }
    } else {
      EmptyVisit(s, k, heartbeat, garbage);
      SameLog(s.log, n);
    }
  }

  lemma OtherPing(log: seq<Event>, after: seq<Event>, e: Event, n: nat)
    requires (after == log || after == log + [e]) && !ToClient(e, n)
    ensures ForOthers(log, after, n)
  {
  }

  lemma SameLog(log: seq<Event>, n: nat)
    ensures ForOthers(log, log, n)
  {
  }

  lemma ConnectElsewhere(s: Sys, id: string, duration: nat, clean: bool, address: nat, n: nat)
    requires Inv(s) && id != "" && address != 0
    requires n < |s.db.registry| && s.db.registry[n].id != "" && s.db.registry[n].id != id
    ensures Untouched(s, Gateway.AddClient(s, id, duration, clean, address), n)
  {
    hide Inv, Gateway.AddClient, ConnectSlot, RowsFor;
    ConnectEffect(s, id, duration, clean, address);
    InvSound(s);
    Timeouts.ConnectElsewhere(s.db.registry, id, clean, n);
    OtherClientsFile(s.db.registry, s.db.files, id, n);
  }

  lemma OtherClientsFile(rows: seq<Client>, files: map<nat, Files>, id: string, n: nat)
    requires n < |rows| && rows[n].id != id
    ensures FilesAt(FilesFor(rows, files, id), n) == FilesAt(files, n)
  {
  }

  /** A step about other clients changes nothing for a live client. */
  lemma StepElsewhere(s: Sys, step: Step, n: nat)
    requires Live(s, n) && Legal(step) && Elsewhere(s.db, step, n)
    ensures Untouched(s, Do(s, step), n)
  {
    hide Inv, Owned, Gateway.AddClient, Visit, Untouched;
    match step {
      case Connect(id, duration, clean, address) => ConnectElsewhere(s, id, duration, clean, address, n);
      case VisitStep(k, heartbeat, garbage) => VisitElsewhere(s, k, heartbeat, garbage, n);
      case _ => QuietElsewhere(s, step, n);
    }
  }

  // The client's own visits

  /** A client whose queue of QoS 0 messages is being delivered, or has been. */
  ghost predicate Delivering(s: Sys, n: nat) {
    && Live(s, n) && s.db.registry[n].await == PINGREQ
    && QueueOk(FilesAt(s.db.files, n)) && (forall p | p in Outbox(QueueAt(s.db, n)) :: p.qos == 0)
    && (s.db.registry[n].status in {ACTIVE, AWAKE}
        || (s.db.registry[n].status == ASLEEP && Outbox(QueueAt(s.db, n)) == []))
  }

  /** The heartbeat, if there is one, leaves the client within its tolerance. */
  predicate Tolerates(d: Db, n: nat, heartbeat: Option<nat>)
    requires n < |d.registry|
  {
    heartbeat.Some? ==> Within(d.registry[n].duration, (d.registry[n].timeout + heartbeat.value) % 0x1_0000_0000)
  }

  /** What one visit sends to the client. */
  ghost function SentNow(row: Client, n: nat, box: seq<Publish>): seq<Event> {
    (if box == [] then [] else [PublishSent(n, row.address, 0, box[0])]) +
    (if row.status == AWAKE && |box| <= 1 then [PingRespSent(n, row.address)] else [])
  }

  ghost function Rest(box: seq<Publish>): seq<Publish> { if box == [] then [] else box[1..] }

  /** The part of a visit before the heartbeat. */
  lemma ServedOnce(s: Sys, n: nat, garbage: bool)
    requires Delivering(s, n)
    ensures var row, box := s.db.registry[n], Outbox(QueueAt(s.db, n));
            var u := Served(s, n, garbage);
            && Live(u, n) && QueueOk(FilesAt(u.db.files, n)) && Outbox(QueueAt(u.db, n)) == Rest(box)
            && u.db.registry[n] == row.(status := if row.status == AWAKE && |box| <= 1 then ASLEEP else row.status)
            && u.log == s.log + SentNow(row, n, box)
  {
    hide Inv, Owned, Served, Outbox, QueueOk, HandlePublishes, OnlyAt, Kept, SentNow;
    var row := s.db.registry[n];
    VisitIsServed(s, n, None, garbage);
    if row.status == ASLEEP {
      Asleep(s, n, garbage);
      PingrespIff(s, n, garbage);
      VisitOnly(s, n, None, garbage);
      AsleepSendsNothing(s.log, row, n);
    } else {
      OneVisit(s, n, garbage);
      SentNowSplits(s.log, row, n, Outbox(QueueAt(s.db, n)));
    }
  }

  lemma SentNowSplits(log: seq<Event>, row: Client, n: nat, box: seq<Publish>)
    ensures log + SentNow(row, n, box) ==
            log + (if box == [] then [] else [PublishSent(n, row.address, 0, box[0])])
            + (if row.status == AWAKE && Rest(box) == [] then [PingRespSent(n, row.address)] else [])
  {
  }

  lemma AsleepSendsNothing(log: seq<Event>, row: Client, n: nat)
    requires row.status == ASLEEP
    ensures log + SentNow(row, n, []) == log && Rest([]) == []
  {
  }

  lemma Asleep(s: Sys, n: nat, garbage: bool)
    requires n < |s.db.registry| && s.db.registry[n].status == ASLEEP
    ensures HandlePublishes(s, s.db.registry[n].status, s.db.registry[n].address, garbage) == s
  {
  }

  /** A tolerated heartbeat after that only changes the client's timeout. */
  lemma OwnVisit(s: Sys, n: nat, heartbeat: Option<nat>, garbage: bool)
    requires Delivering(s, n) && Tolerates(s.db, n, heartbeat)
    ensures var row, box := s.db.registry[n], Outbox(QueueAt(s.db, n));
            var t := Visit(s, n, heartbeat, garbage);
            && Live(t, n) && QueueOk(FilesAt(t.db.files, n)) && Outbox(QueueAt(t.db, n)) == Rest(box)
            && t.db.registry[n] == row.(status := if row.status == AWAKE && |box| <= 1 then ASLEEP else row.status,
                                        timeout := t.db.registry[n].timeout)
            && t.log == s.log + SentNow(row, n, box)
  {
    hide Inv, Owned, Served, Visit, Outbox, QueueOk, HandleTimeout, OnlyAt, SentNow, Rest, DistinctAddresses, Within;
    ServedOnce(s, n, garbage);
    VisitIsServed(s, n, heartbeat, garbage);
    if heartbeat.Some? {
      var row, u := s.db.registry[n], Served(s, n, garbage);
      OwnedDistinct(u.db);
      HandleTimeoutAt(u, n, row, heartbeat.value);
      LiveRow(s, n);
      VisitOnly(s, n, heartbeat, garbage);
      OnlyAtSize(s.db, Visit(s, n, heartbeat, garbage).db, n);
    }
  }

  // Runs

  /** Every step of the run is about other clients, or is a visit to row n with a tolerated heartbeat or none. */
  ghost predicate Undisturbed(s: Sys, steps: seq<Step>, n: nat) {
    steps != [] ==>
      var before, step := steps[..|steps| - 1], steps[|steps| - 1];
      var d := Run(s, before).db;
      && Undisturbed(s, before, n) && n < |d.registry|
      && (Elsewhere(d, step, n) || (step.VisitStep? && Tolerates(d, n, step.heartbeat)))
  }

  /** How often the run visits the client. */
  function VisitsTo(steps: seq<Step>, n: nat): nat {
    if steps == [] then 0
    else VisitsTo(steps[..|steps| - 1], n) + if AtRow(steps[|steps| - 1], n) then 1 else 0
  }

  predicate AtRow(step: Step, n: nat) { step.VisitStep? && step.n == n }

  /** What is left of the queue after v visits. */
  ghost function Unsent(box: seq<Publish>, v: nat): seq<Publish> { if v <= |box| then box[v..] else [] }

  /** The client was awake and has had its PINGRESP by the v-th visit. */
  predicate Answered(row: Client, box: seq<Publish>, v: nat) { row.status == AWAKE && 1 <= v && |box| <= v }

  ghost function RowAfter(row: Client, box: seq<Publish>, v: nat, timeout: nat): Client {
    row.(status := if Answered(row, box, v) then ASLEEP else row.status, timeout := timeout)
  }

  /** What v visits send: the first messages and, once all are out, the PINGRESP of an awake client. */
  ghost function SentBy(row: Client, n: nat, box: seq<Publish>, v: nat): seq<Event> {
    Sends(n, row.address, box[..if v <= |box| then v else |box|]) +
    (if Answered(row, box, v) then [PingRespSent(n, row.address)] else [])
  }

  /** A further visit. */
  lemma OneMoreVisit(row: Client, now: Client, n: nat, box: seq<Publish>, v: nat, timeout: nat)
    requires now == RowAfter(row, box, v, now.timeout)
    ensures Rest(Unsent(box, v)) == Unsent(box, v + 1)
    ensures SentBy(row, n, box, v) + SentNow(now, n, Unsent(box, v)) == SentBy(row, n, box, v + 1)
    ensures now.(status := if now.status == AWAKE && |Unsent(box, v)| <= 1 then ASLEEP else now.status,
                 timeout := timeout) == RowAfter(row, box, v + 1, timeout)
  {
    if v < |box| {
      assert Sends(n, row.address, box[..v + 1]) ==
             Sends(n, row.address, box[..v]) + [PublishSent(n, row.address, 0, box[v])];
    }
  }

  /** Where delivery stands after v visits: the first v messages have gone out, in order and each once, and an awake
      client whose queue is through has had its one PINGRESP and is asleep. */
  ghost predicate Delivered(s: Sys, t: Sys, n: nat, v: nat)
    requires Delivering(s, n)
  {
    var row, box := s.db.registry[n], Outbox(QueueAt(s.db, n));
    && Delivering(t, n) && Outbox(QueueAt(t.db, n)) == Unsent(box, v)
    && t.db.registry[n] == RowAfter(row, box, v, t.db.registry[n].timeout)
    && About(t.log, n) == About(s.log, n) + SentBy(row, n, box, v)
  }

  lemma NothingDelivered(s: Sys, n: nat)
    requires Delivering(s, n)
    ensures Delivered(s, s, n, 0)
  {
    hide Inv, Owned, Outbox, QueueOk;
    var box := Outbox(QueueAt(s.db, n));
    assert box[0..] == box && Sends(n, s.db.registry[n].address, box[..0]) == [];
  }

  lemma UntouchedDelivers(t: Sys, u: Sys, n: nat)
    requires Delivering(t, n) && Untouched(t, u, n) && Inv(u) && Owned(u.db)
    ensures Delivering(u, n)
    ensures u.db.registry[n] == t.db.registry[n] && QueueAt(u.db, n) == QueueAt(t.db, n)
    ensures About(u.log, n) == About(t.log, n)
  {
    hide Inv, Owned, Outbox, QueueOk, ForOthers, About;
    AboutOthers(t.log, u.log, n);
  }

  lemma OthersDeliverNothing(s: Sys, t: Sys, u: Sys, n: nat, v: nat)
    requires Delivering(s, n) && Delivered(s, t, n, v) && Untouched(t, u, n) && Inv(u) && Owned(u.db)
    ensures Delivered(s, u, n, v)
  {
    hide Inv, Owned, Outbox, QueueOk, QueueAt, ForOthers, Untouched, About, SentBy, Unsent, RowAfter;
    UntouchedDelivers(t, u, n);
  }

  lemma AboutSentNow(log: seq<Event>, row: Client, n: nat, box: seq<Publish>)
    ensures About(log + SentNow(row, n, box), n) == About(log, n) + SentNow(row, n, box)
  {
    hide About;
    var ping := PingRespSent(n, row.address);
    if box == [] {
      AboutSnoc(log, ping, n);
      assert log + [] == log && About(log, n) + [] == About(log, n);
      assert log + ([] + [ping]) == log + [ping];
    } else {
      var sent := PublishSent(n, row.address, 0, box[0]);
      AboutSnoc(log, sent, n);
      AboutSnoc(log + [sent], ping, n);
      assert log + ([sent] + [ping]) == log + [sent] + [ping] && log + ([sent] + []) == log + [sent];
    }
  }

  lemma StillDelivering(s: Sys, n: nat, heartbeat: Option<nat>, garbage: bool)
    requires Delivering(s, n) && Tolerates(s.db, n, heartbeat)
    ensures Delivering(Visit(s, n, heartbeat, garbage), n)
  {
    hide Inv, Owned, Outbox, QueueOk, Visit, Tolerates, SentNow;
    OwnVisit(s, n, heartbeat, garbage);
  }

  lemma OneMoreDelivered(s: Sys, t: Sys, n: nat, v: nat, heartbeat: Option<nat>, garbage: bool)
    requires Delivering(s, n) && Delivered(s, t, n, v) && Tolerates(t.db, n, heartbeat)
    ensures Delivered(s, Visit(t, n, heartbeat, garbage), n, v + 1)
  {
    hide Inv, Owned, Outbox, QueueOk, Visit, About, Tolerates, SentBy, SentNow, Unsent, RowAfter, Rest;
    var row, box := s.db.registry[n], Outbox(QueueAt(s.db, n));
    OwnVisit(t, n, heartbeat, garbage);
    StillDelivering(t, n, heartbeat, garbage);
    AboutSentNow(t.log, t.db.registry[n], n, Outbox(QueueAt(t.db, n)));
    OneMoreVisit(row, t.db.registry[n], n, box, v, Visit(t, n, heartbeat, garbage).db.registry[n].timeout);
  }

  /** Delivery over any run: whatever happens to other clients in between, and with heartbeats, v visits send exactly
      the first v queued messages, each once and in order; once all are out, an awake client gets exactly one PINGRESP
      and is asleep, and further visits send nothing. */
  lemma {:induction false} RunDelivers(s: Sys, steps: seq<Step>, n: nat)
    requires Delivering(s, n) && OwnedRun(s, steps) && Undisturbed(s, steps, n)
    ensures Delivered(s, Run(s, steps), n, VisitsTo(steps, n))
  {
    hide Inv, Owned, Do, MakesHole, OwnAddress, Delivered, Delivering, Elsewhere, Tolerates, Untouched;
    StartsInOrder(s, n);
    if steps == [] {
      NothingDelivered(s, n);
    } else {
      var before, step := steps[..|steps| - 1], steps[|steps| - 1];
      var t := Run(s, before);
      RunDelivers(s, before, n);
      OwnedRunKeeps(s, steps);
      if AtRow(step, n) {
        OwnStep(t, step, n);
        OneMoreDelivered(s, t, n, VisitsTo(before, n), step.heartbeat, step.garbage);
      } else {
        OtherStep(t, step, n);
        DeliveredIsLive(s, t, n, VisitsTo(before, n));
        StepElsewhere(t, step, n);
        OthersDeliverNothing(s, t, Do(t, step), n, VisitsTo(before, n));
      }
    }
  }

  lemma StartsInOrder(s: Sys, n: nat)
    requires Delivering(s, n)
    ensures Inv(s) && Owned(s.db)
  {
  }

  lemma DeliveredIsLive(s: Sys, t: Sys, n: nat, v: nat)
    requires Delivering(s, n) && Delivered(s, t, n, v)
    ensures Live(t, n)
  {
  }

  lemma OwnStep(t: Sys, step: Step, n: nat)
    requires AtRow(step, n) && n < |t.db.registry|
    requires Elsewhere(t.db, step, n) || (step.VisitStep? && Tolerates(t.db, n, step.heartbeat))
    ensures Tolerates(t.db, n, step.heartbeat) && Do(t, step) == Visit(t, n, step.heartbeat, step.garbage)
  {
    hide Visit;
  }

  lemma OtherStep(t: Sys, step: Step, n: nat)
    requires !AtRow(step, n) && n < |t.db.registry|
    requires Elsewhere(t.db, step, n) || (step.VisitStep? && Tolerates(t.db, n, step.heartbeat))
    ensures Elsewhere(t.db, step, n)
  {
  }

  /** The cycle of a sleeping client (section 6.14 of MQTT-SN v1.2), whatever happens to other clients meanwhile: its
      PINGREQ wakes it, and after enough visits everything queued has been sent exactly once and in order, followed by
      one PINGRESP, and its row is as it was but for the timeout. */
  lemma {:induction false} SleeperIsServed(s: Sys, steps: seq<Step>, n: nat)
    requires Live(s, n) && s.db.registry[n].status == ASLEEP && s.db.registry[n].await == PINGREQ
    requires QueueOk(FilesAt(s.db.files, n)) && forall p | p in Outbox(QueueAt(s.db, n)) :: p.qos == 0
    requires var awake := SetState(s, s.db.registry[n].address, AWAKE);
             OwnedRun(awake, steps) && Undisturbed(awake, steps, n)
    requires VisitsTo(steps, n) >= 1 && VisitsTo(steps, n) >= |Outbox(QueueAt(s.db, n))|
    ensures var row, box := s.db.registry[n], Outbox(QueueAt(s.db, n));
            var t := Run(SetState(s, row.address, AWAKE), steps);
            && Live(t, n) && Outbox(QueueAt(t.db, n)) == []
            && t.db.registry[n] == row.(timeout := t.db.registry[n].timeout)
            && About(t.log, n) == About(s.log, n) + Sends(n, row.address, box) + [PingRespSent(n, row.address)]
  {
    hide Inv, Owned, SetState, Outbox, QueueOk, OwnedRun, Undisturbed, Run, About;
    StateEffect(s, n, AWAKE);
    RunDelivers(SetState(s, s.db.registry[n].address, AWAKE), steps, n);
    var box := Outbox(QueueAt(s.db, n));
    assert box[..|box|] == box && box[|box|..] == [];
  }
}
