/** What an operation leaves alone: the frame of every step of a run, row by row and file by file. */
module Effects {
  import opened Bytes
  import opened Store
  import opened Gateway
  import opened Soundness
  import opened Operations
  import opened Unsubscribing

  /** Rows change in their status and await type only, registrations are only added, and files appear only for
      rows that are in use. */
  ghost predicate Kept(d: Db, e: Db) {
    && RowsKept(d.registry, e.registry)
    && (forall n: nat :: FilesAt(d.files, n).regs <= FilesAt(e.files, n).regs)
    && (forall n | n in d.files :: n in e.files)
    && (forall n | n in e.files :: n in d.files || (n < |d.registry| && d.registry[n].id != ""))
  }

  ghost predicate RowsKept(rows: seq<Client>, after: seq<Client>) {
    && |after| == |rows|
    && forall n | 0 <= n < |rows| :: after[n] == rows[n].(status := after[n].status, await := after[n].await)
  }

  ghost predicate AwaitsKept(rows: seq<Client>, after: seq<Client>) {
    |after| == |rows| && forall n | 0 <= n < |rows| :: after[n].await == rows[n].await
  }

  lemma KeptChain(d: Db, e: Db, f: Db)
    requires Kept(d, e) && Kept(e, f)
    ensures Kept(d, f)
  {
    forall n: nat ensures FilesAt(d.files, n).regs <= FilesAt(f.files, n).regs {
      assert FilesAt(d.files, n).regs <= FilesAt(e.files, n).regs;
    }
  }

  lemma KeptSame(d: Db, e: Db)
    requires SameTables(d, e) || (e.registry == d.registry && e.files == d.files)
    ensures Kept(d, e) && AwaitsKept(d.registry, e.registry)
  {
  }

  lemma EntryRowKept(d: Db, c: Client)
    requires EntryOk(d) && Ready(d) && c == d.entry.(status := c.status, await := c.await)
    ensures Kept(d, WriteEntry(d, c)) && WriteEntry(d, c).files == d.files
    ensures WriteEntry(d, c).registry == d.registry[c.fileNumber := c]
    ensures c.await == d.entry.await ==> AwaitsKept(d.registry, WriteEntry(d, c).registry)
  {
  }

  lemma StatusKept(d: Db, status: Status)
    requires EntryOk(d)
    ensures Kept(d, SetStatus(d, status)) && AwaitsKept(d.registry, SetStatus(d, status).registry)
  {
    hide WriteEntry;
    if Ready(d) {
      EntryRowKept(d, d.entry.(status := status));
    } else {
      KeptSame(d, d);
    }
  }

  lemma AwaitKept(d: Db, await: Await)
    requires EntryOk(d)
    ensures Kept(d, SetAwait(d, await))
  {
    hide WriteEntry;
    if Ready(d) {
      EntryRowKept(d, d.entry.(await := await));
    } else {
      KeptSame(d, d);
    }
  }

  /** The client's files may gain registrations, and change in subscriptions, will and queue. */
  lemma MineKept(d: Db, e: Db, f: Files)
    requires EntryOk(d) && Ready(d) && Mine(d).regs <= f.regs
    requires e.registry == d.registry && e.files == d.files[d.entry.fileNumber := f]
    ensures Kept(d, e) && AwaitsKept(d.registry, e.registry)
  {
  }

  /** What all operations by address but SUBSCRIBE do inside their transaction. */
  lemma FileOperationsKept(d: Db)
    requires EntryOk(d)
    ensures forall topic, qos, retain :: FilesOnly(d, SetWillTopic(d, topic, qos, retain))
    ensures forall message :: FilesOnly(d, SetWillMessage(d, message))
    ensures FilesOnly(d, DeleteWill(d))
    ensures forall data, topicId, retain, qos :: FilesOnly(d, AddPublish(d, data, topicId, retain, qos))
    ensures forall id :: FilesOnly(d, RemovePublish(d, id))
    ensures forall id, msgId :: FilesOnly(d, SetPublishMsgId(d, id, msgId))
    ensures Ready(d) ==> forall queue :: FilesOnly(d, SetMine(d, Mine(d).(queue := queue)))
  {
    hide EntryOk, Enqueued, AwaitsKept, Kept;
    KeptSame(d, d);
    KeptSame(d, d.(error := true));
    forall f: Files | Ready(d) && f.regs == Mine(d).regs ensures FilesOnly(d, SetMine(d, f)) {
      MineKept(d, SetMine(d, f), f);
    }
  }

  ghost predicate FilesOnly(d: Db, e: Db) {
    Kept(d, e) && e.registry == d.registry
  }

  /** SUBSCRIBE inside its transaction. */
  lemma SubscribeKept(s: Sys, address: nat, topicId: nat, shortTopic: bool, qos: nat, accepted: bool)
    requires Inv(s) && address != 0
    ensures var t := Gateway.AddSubscription(s, address, topicId, shortTopic, qos, accepted);
            Kept(s.db, t.db) && t.db.registry == s.db.registry && t.log == s.log
  {
    hide Sound, Resolve, Enter, Kept, EntryOk, AwaitsKept;
    KeptSame(s.db, s.db);
    if s.online {
      var open := StartByAddress(s.db, address);
      Opened(s, address);
      KeptSame(s.db, Apply(open));
      if Ready(open) {
        ResolveKeeps(open, topicId, shortTopic);
        var (resolved, name, id) := Resolve(open, topicId, shortTopic);
        MyFilesKept(s.db, open, resolved);
        if name.Some? {
          EnterKeeps(resolved, name.value, id, if qos >= 1 then 1 else 0);
          var entered := Enter(resolved, name.value, id, if qos >= 1 then 1 else 0).0;
          OnlyMineChain(open, resolved, entered);
          MyFilesKept(s.db, open, entered);
        }
      }
    }
  }

  lemma OnlyMineChain(d: Db, e: Db, f: Db)
    requires OnlyMine(d, e) && OnlyMine(e, f) && e.entry == d.entry && f.entry == e.entry
    requires !d.missing && !e.missing && !f.missing
    ensures OnlyMine(d, f)
  {
  }

  /** Only the client's own files differ, and its registrations have only grown. */
  lemma MyFilesKept(d: Db, open: Db, e: Db)
    requires SameTables(d, open) && Sound(open) && Ready(open)
    requires e == open.(files := e.files, counts := e.counts)
    requires Mine(open).regs <= Mine(e).regs
    requires OnlyMine(open, e)
    ensures forall g: Db | g.registry == e.registry && g.files == e.files :: Kept(d, g)
  {
  }

  /** Without the broker, CONNECT, wills, REGISTER, SUBSCRIBE and falling asleep change nothing. */
  lemma OfflineIsIgnored(s: Sys, step: Step)
    requires !s.online
    requires step.Connect? || step.WillTopicStep? || step.WillMessageStep? || step.Register? || step.Subscribe? ||
             (step.SetStateStep? && step.status == ASLEEP)
    ensures Do(s, step) == s
  {
  }

  /** The operations that neither connect a client nor visit one. */
  ghost predicate Quiet(step: Step) {
    !step.Connect? && !step.VisitStep?
  }

  /** Quiet operations keep rows and registrations; the await types change only for an awaited will or PUBREL and
      for a REGACK. */
  lemma QuietKept(s: Sys, step: Step)
    requires Inv(s) && Legal(step) && Quiet(step)
    ensures Kept(s.db, Do(s, step).db)
    ensures !step.AwaitStep? && !step.Regack? ==> AwaitsKept(s.db.registry, Do(s, step).db.registry)
  {
    hide Sound, EntryOk, SetStatus, SetAwait, Kept, AwaitsKept, Store.AddRegistration, Gateway.AddSubscription;
    KeptSame(s.db, s.db);
    match step {
      case Subscribe(address, topicId, shortTopic, qos, accepted) =>
        SubscribeKept(s, address, topicId, shortTopic, qos, accepted);
        SameRowsKept(s.db, Do(s, step).db);
      case UnsubscribeStep(_, _, _) => UnsubscribeKept(s, step);
      case UnsubscribeNameStep(_, _) => UnsubscribeKept(s, step);
      case BrokerLink(_) =>
      case AwaitStep(address, await) =>
        TransactionOpened(s, address);
        AwaitKept(StartByAddress(s.db, address), await);
      case Regack(address, _, _) =>
        TransactionOpened(s, address);
        AwaitKept(StartByAddress(s.db, address), PINGREQ);
      case SetStateStep(address, status) =>
        TransactionOpened(s, address);
        StatusKept(StartByAddress(s.db, address), status);
      case Register(address, name) =>
        TransactionOpened(s, address);
        RegistrationKept(s, address, name);
      case _ => FileStepKept(s, step);
    }
  }

  /** UNSUBSCRIBE, whatever it does, touches its client's subscriptions only. */
  lemma UnsubscribeKept(s: Sys, step: Step)
    requires Inv(s) && Legal(step) && Unsubscribes(step)
    ensures Kept(s.db, Do(s, step).db) && AwaitsKept(s.db.registry, Do(s, step).db.registry)
  {
    hide Sound, EntryOk, DeleteTopic, Kept, AwaitsKept;
    var d, t := StartByAddress(s.db, step.address), Do(s, step);
    Opened(s, step.address);
    SoundEntry(d);
    UnsubscribeTouches(s, step);
    if t.db.files == s.db.files {
      KeptSame(s.db, t.db);
    } else {
      MineKept(d, d.(files := t.db.files), FilesAt(t.db.files, d.entry.fileNumber));
      KeptTables(d, d.(files := t.db.files), s.db, t.db);
    }
  }

  lemma KeptTables(d: Db, e: Db, f: Db, g: Db)
    requires Kept(d, e) && AwaitsKept(d.registry, e.registry)
    requires f.registry == d.registry && f.files == d.files && g.registry == e.registry && g.files == e.files
    ensures Kept(f, g) && AwaitsKept(f.registry, g.registry)
  {
  }

  /** The operations on a client's will and queue. */
  lemma FileStepKept(s: Sys, step: Step)
    requires Inv(s) && Legal(step)
    requires step.WillTopicStep? || step.WillMessageStep? || step.RemoveWillStep? || step.Puback? || step.BrokerPublish?
    ensures Kept(s.db, Do(s, step).db) && AwaitsKept(s.db.registry, Do(s, step).db.registry)
  {
    hide Sound, EntryOk, SetWillTopic, SetWillMessage, DeleteWill, AddPublish, Kept, AwaitsKept;
    KeptSame(s.db, s.db);
    TransactionOpened(s, step.address);
    FileOperationsKept(StartByAddress(s.db, step.address));
  }

  lemma TransactionOpened(s: Sys, address: nat)
    requires Inv(s) && address != 0
    ensures var d := StartByAddress(s.db, address); Sound(d) && EntryOk(d) && Kept(d, d)
    ensures forall e: Db | Kept(StartByAddress(s.db, address), e) :: Kept(s.db, Apply(e))
    ensures var rows := StartByAddress(s.db, address).registry;
            forall e: Db | e.registry == rows || AwaitsKept(rows, e.registry) ::
              AwaitsKept(s.db.registry, Apply(e).registry)
  {
    hide Sound, Kept, AwaitsKept;
    Opened(s, address);
    SoundEntry(StartByAddress(s.db, address));
    KeptSame(StartByAddress(s.db, address), StartByAddress(s.db, address));
    TransactionsKept(s, address);
  }

  lemma SoundEntry(d: Db)
    requires Sound(d)
    ensures EntryOk(d) && TablesOk(d.files, d.counts) && RowsOk(d.registry)
  {
  }

  lemma SameRowsKept(d: Db, e: Db)
    requires e.registry == d.registry
    ensures AwaitsKept(d.registry, e.registry)
  {
  }

  lemma TransactionsKept(s: Sys, address: nat)
    ensures forall e: Db | Kept(StartByAddress(s.db, address), e) :: Kept(s.db, Apply(e))
    ensures var rows := StartByAddress(s.db, address).registry;
            forall e: Db | e.registry == rows || AwaitsKept(rows, e.registry) ::
              AwaitsKept(s.db.registry, Apply(e).registry)
  {
  }

  lemma RegistrationKept(s: Sys, address: nat, name: TopicName)
    requires Inv(s) && address != 0
    ensures var e := Store.AddRegistration(StartByAddress(s.db, address), name, 0).0;
            Kept(StartByAddress(s.db, address), e) && e.registry == s.db.registry
  {
    hide Sound, Store.AddRegistration, Kept;
    var d := StartByAddress(s.db, address);
    Opened(s, address);
    KeptSame(d, d);
    if Ready(d) {
      AddRegistrationKeeps(d, name, 0);
      MyFilesKept(d, d, Store.AddRegistration(d, name, 0).0);
    } else {
      NoRegistrationMade(d, name);
    }
  }

  /** No other row and no other client's files differ. */
  ghost predicate OnlyAt(d: Db, e: Db, k: nat) {
    && |e.registry| == |d.registry|
    && (forall m | 0 <= m < |d.registry| && m != k :: e.registry[m] == d.registry[m])
    && (forall m: nat | m != k :: FilesAt(e.files, m) == FilesAt(d.files, m))
    && (forall m: nat | m != k :: m in e.files <==> m in d.files)
  }
}
