/** The gateway never sends a REGISTER: every registered topic counts as known, and an unregistered one has no name. So
    no client is ever awaited to answer one. */
module Registers {
  import opened Bytes
  import opened Scan
  import opened Store
  import opened Gateway
  import opened Soundness
  import opened Operations
  import opened Unsubscribing
  import opened Effects
  import opened Visits
  import opened Ownership
  import opened MessageIds

  ghost predicate NoneSent(log: seq<Event>) {
    forall i | 0 <= i < |log| :: !log[i].RegisterSent?
  }

  ghost predicate NoneAwaited(rows: seq<Client>) {
    forall i | 0 <= i < |rows| :: rows[i].await != REGACK
  }

  /** Nothing has been registered with a client, and none is to answer. */
  ghost predicate Unregistered(s: Sys) { NoneSent(s.log) && NoneAwaited(s.db.registry) }

  /** A topic id that is not known has no name either. */
  lemma UnknownHasNoName(d: Db, id: nat, garbage: bool)
    requires Sound(d)
    ensures var (checked, known) := IsTopicKnown(d, id, garbage);
            !known ==> GetTopicName(checked, id).None?
  {
    hide RowsOk, CountsOk;
    MineOk(d);
    var regs := Mine(d).regs;
    if Ready(d) && First(regs, RegistrationWithId(id)) < |regs| {
      assert regs[First(regs, RegistrationWithId(id))].known;
    }
  }

  lemma NextRegistersNone(s: Sys, d: Db, address: nat, next: Publish, garbage: bool)
    requires Sound(d) && NoneSent(s.log) && NoneAwaited(d.registry)
    ensures Unregistered(SendNext(s, d, address, next, garbage))
  {
    hide Sound, GetTopicName, SetAwait, SetAwaitId, RemovePublish, SetPublishMsgId, NoneSent, NoneAwaited, Finish,
      IsTopicKnown, EntryOk, Unregistered;
    var (checked, known) := IsTopicKnown(d, next.topicId, garbage);
    UnknownHasNoName(d, next.topicId, garbage);
    ApplyRegistersNone(s, d, next.topicId, garbage);
    var msgId := NextMsgId(AwaitId(checked));
    AwaitIdUnchanged(checked, msgId);
    RowsAwaiting(checked, next.publishId, msgId);
    FinishRegistersNone(s, RemovePublish(checked, next.publishId),
                        PublishSent(checked.entry.fileNumber, address, 0, next));
    FinishRegistersNone(s, SetPublishMsgId(SetAwait(checked, PUBACK), next.publishId, msgId),
                        PublishSent(checked.entry.fileNumber, address, msgId, next));
  }

  lemma ApplyRegistersNone(s: Sys, d: Db, id: nat, garbage: bool)
    requires Sound(d) && NoneSent(s.log) && NoneAwaited(d.registry)
    ensures var checked := IsTopicKnown(d, id, garbage).0;
            EntryOk(checked) && NoneAwaited(checked.registry) && Unregistered(s.(db := Apply(checked)))
  {
    hide TablesOk, RowsOk, NoneSent, NoneAwaited;
  }

  lemma FinishRegistersNone(s: Sys, d: Db, e: Event)
    requires NoneSent(s.log) && NoneAwaited(d.registry) && !e.RegisterSent?
    ensures Unregistered(Finish(s, d, e))
  {
    hide NoneSent, NoneAwaited;
    OneMoreSent(s.log, e);
  }

  lemma RowsAwaiting(d: Db, publishId: nat, msgId: nat)
    requires NoneAwaited(d.registry)
    ensures NoneAwaited(RemovePublish(d, publishId).registry)
    ensures NoneAwaited(SetPublishMsgId(SetAwait(d, PUBACK), publishId, msgId).registry)
  {
  }

  lemma OneMoreSent(log: seq<Event>, e: Event)
    requires NoneSent(log) && !e.RegisterSent?
    ensures NoneSent(log + [e])
  {
  }

  lemma NoMessagesNone(log: seq<Event>, after: seq<Event>)
    requires NoneSent(log) && NoMessages(log, after)
    ensures NoneSent(after)
  {
    forall i | 0 <= i < |log| ensures !after[i].RegisterSent? {
      assert after[i] == after[..|log|][i];
    }
  }

  lemma AwaitsNone(rows: seq<Client>, after: seq<Client>)
    requires NoneAwaited(rows) && AwaitsKept(rows, after)
    ensures NoneAwaited(after)
  {
  }

  lemma SendRegistersNone(s: Sys, status: Status, address: nat, garbage: bool)
    requires Inv(s) && (status in {AWAKE, ACTIVE} ==> address != 0) && Unregistered(s)
    ensures Unregistered(HandlePublishes(s, status, address, garbage))
  {
    hide Sound, SendNext, HasPublishes, NoneSent, NoneAwaited;
    if status in {AWAKE, ACTIVE} {
      var d := StartByAddress(s.db, address);
      Opened(s, address);
      NextRegistersNone(s, d, address, NextPublish(Mine(d).queue), garbage);
    }
  }

  lemma AnswerAwaitsNone(s: Sys, status: Status, address: nat)
    requires Inv(s) && (status == AWAKE ==> address != 0) && Unregistered(s)
    ensures Unregistered(AnswerPing(s, status, address))
  {
    hide Sound, SetStatus, HasPublishes, NoneSent, NoneAwaited, NoMessages, AwaitsKept, Kept;
    AnswerPingEvents(s, status, address);
    NoMessagesNone(s.log, AnswerPing(s, status, address).log);
    if status == AWAKE {
      var d := StartByAddress(s.db, address);
      Opened(s, address);
      SoundEntry(d);
      StatusKept(d, ASLEEP);
      AwaitsNone(s.db.registry, SetStatus(d, ASLEEP).registry);
    }
  }

  lemma VisitRegistersNone(s: Sys, n: nat, heartbeat: Option<nat>, garbage: bool)
    requires Inv(s) && Owned(s.db) && n < |s.db.registry| && s.db.registry[n].id != "" && Unregistered(s)
    ensures Unregistered(Visit(s, n, heartbeat, garbage))
  {
    hide Inv, HandlePublishes, AnswerPing, HandleTimeout, NoneSent, DistinctAddresses, Within, Kept, NoMessages;
    var row := s.db.registry[n];
    LiveRow(s, n);
    OwnedDistinct(s.db);
    HandlePublishesKeeps(s, row.status, row.address, garbage);
    SendRegistersNone(s, row.status, row.address, garbage);
    AnswerAwaitsNone(HandlePublishes(s, row.status, row.address, garbage), row.status, row.address);
    if heartbeat.Some? {
      var u := Served(s, n, garbage);
      ServedServes(s, n, garbage);
      ServedFacts(s.db, u.db, n);
      HandleTimeoutAt(u, n, row, heartbeat.value);
      TimeoutEvents(u, row, heartbeat.value);
      NoMessagesNone(u.log, HandleTimeout(u, row, heartbeat.value).log);
    }
  }

  lemma StepRegistersNone(s: Sys, step: Step)
    requires Inv(s) && Owned(s.db) && Legal(step) && Unregistered(s)
    ensures Unregistered(Do(s, step))
  {
    hide Inv, Owned, Gateway.AddClient, Visit, NoneSent, NoMessages, Kept, AwaitsKept, ConnectSlot, FilesFor;
    match step {
      case Connect(id, duration, clean, address) =>
        ConnectEffect(s, id, duration, clean, address);
        OneMoreSent(s.log, Connected(ConnectSlot(s.db.registry, id, clean)));
      case VisitStep(n, heartbeat, garbage) =>
        if n < |s.db.registry| && s.db.registry[n].id != "" {
          VisitRegistersNone(s, n, heartbeat, garbage);
        } else {
          EmptyVisit(s, n, heartbeat, garbage);
        }
      case _ =>
        QuietEventsSendNothing(s, step);
        NoMessagesNone(s.log, Do(s, step).log);
        QuietAwaitsNone(s, step);
    }
  }

  lemma QuietAwaitsNone(s: Sys, step: Step)
    requires Inv(s) && Legal(step) && Quiet(step) && NoneAwaited(s.db.registry)
    ensures NoneAwaited(Do(s, step).db.registry)
  {
    hide Sound, SetAwait, AwaitsKept, Kept, Do;
    QuietKept(s, step);
    if step.AwaitStep? || step.Regack? {
      AwaitedNone(s, step);
    } else {
      AwaitsNone(s.db.registry, Do(s, step).db.registry);
    }
  }

  lemma AwaitedNone(s: Sys, step: Step)
    requires Inv(s) && Legal(step) && (step.AwaitStep? || step.Regack?) && NoneAwaited(s.db.registry)
    ensures NoneAwaited(Do(s, step).db.registry)
  {
    hide Sound;
    Opened(s, step.address);
    SoundEntry(StartByAddress(s.db, step.address));
  }

  /** Over every run the gateway sends no REGISTER and no client is awaited to answer one. */
  lemma {:induction false} RegistersNone(s: Sys, steps: seq<Step>)
    requires Inv(s) && Owned(s.db) && Unregistered(s) && OwnedRun(s, steps)
    ensures Unregistered(Run(s, steps))
  {
    hide Inv, Owned, Do, MakesHole, OwnAddress, Unregistered;
    if steps != [] {
      var before := steps[..|steps| - 1];
      RegistersNone(s, before);
      OwnedRunKeeps(s, before);
      StepRegistersNone(Run(s, before), steps[|steps| - 1]);
    }
  }

  /** So no REGACK is ever taken. */
  lemma RegackIsNotTaken(s: Sys, address: nat, msgId: nat, code: nat)
    requires Inv(s) && address != 0 && NoneAwaited(s.db.registry)
    ensures RegackArrived(s, address, msgId, code).log == s.log
    ensures SameTables(s.db, RegackArrived(s, address, msgId, code).db)
  {
    hide Sound;
    Opened(s, address);
    SoundEntry(StartByAddress(s.db, address));
  }
}
