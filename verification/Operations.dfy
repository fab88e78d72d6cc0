/** What each core operation does to the tables: it keeps them in order, and the counts as right as they were. */
module Operations {
  import opened Bytes
  import opened Scan
  import opened Store
  import opened Gateway
  import opened Soundness

  // Transactions

  /** Everything but the transaction's copy and flags. */
  ghost predicate SameTables(d: Db, e: Db) {
    e == d.(entry := e.entry, started := e.started, error := e.error, missing := e.missing)
  }

  lemma StartByAddressKeeps(d: Db, address: nat)
    requires Sound(d) && Idle(d) && address != 0
    ensures var e := StartByAddress(d, address);
            && Sound(e) && Open(e) && SameTables(d, e)
            && (Ready(e) ==> e.entry.address == address)
  {
  }

  lemma StartByIdKeeps(d: Db, id: string)
    requires Sound(d) && Idle(d) && id != ""
    ensures var e := StartById(d, id);
            && Sound(e) && SameTables(d, e)
            && (if |id| >= MAXIMUM_CLIENT_ID_LENGTH then !Open(e) && !e.started
                else Open(e) && if Ready(e) then e.entry.id == id else forall c | c in d.registry :: c.id != id)
  {
    if |id| < MAXIMUM_CLIENT_ID_LENGTH {
      var i := First(d.registry, ById(id));
      forall c | c in d.registry && i == |d.registry| ensures c.id != id {
        var j :| 0 <= j < |d.registry| && d.registry[j] == c;
        assert !ById(id)(d.registry[j]);
      }
    }
  }

  lemma CloseKeeps(s: Sys, log: seq<Event>)
    requires Sound(s.db)
    ensures Inv(s.(db := Apply(s.db), log := log))
  {
  }

  /** Opening and closing a transaction changes no table. */
  lemma LookOnlyKeeps(s: Sys, address: nat)
    requires Inv(s)
    ensures Inv(s.(db := Apply(StartByAddress(s.db, address))))
    ensures SameTables(s.db, Apply(StartByAddress(s.db, address)))
    ensures SameCounting(s, s.(db := Apply(StartByAddress(s.db, address))))
  {
  }

  /** A row may be rewritten under its own id, at its own place. */
  lemma WriteEntryKeeps(d: Db, c: Client)
    requires Sound(d) && Ready(d) && c.id == d.entry.id && c.fileNumber == d.entry.fileNumber && c.address != 0
    requires c.status != EMPTY
    ensures var e := WriteEntry(d, c);
            && Sound(e) && Ready(e) && e == d.(entry := c, registry := d.registry[c.fileNumber := c])
  {
  }

  /** The client's files may be rewritten with the same subscriptions. */
  lemma SetMineKeeps(d: Db, f: Files)
    requires Sound(d) && !d.missing && FileOk(f) && f.subs == Mine(d).subs
    ensures Sound(SetMine(d, f)) && SameSubs(d.files, SetMine(d, f).files)
  {
    SameSubsKeep(d.files, d.counts, d.entry.fileNumber, f);
  }

  /** What the store operations inside a transaction may do without disturbing the counts. */
  ghost predicate Harmless(d: Db, e: Db) {
    Sound(e) && e.counts == d.counts && SameSubs(d.files, e.files)
  }

  // Registrations

  lemma AddRegistrationKeeps(d: Db, name: TopicName, before: nat)
    requires Sound(d) && Ready(d)
    ensures var (after, id) := Store.AddRegistration(d, name, before);
            && Sound(after) && Ready(after) && after == d.(files := after.files)
            && 1 <= id <= |Mine(after).regs| && Mine(after).regs[id - 1].name == name
            && Mine(d).regs <= Mine(after).regs && Mine(after) == Mine(d).(regs := Mine(after).regs)
            && OnlyMine(d, after) && SameSubs(d.files, after.files)
  {
    hide RowsOk, TablesOk, RegsOk, SubsOk, EntryOk;
    TablesMineOk(d);
    var f := Mine(d);
    var i := First(f.regs, RegistrationNamed(name));
    if i == |f.regs| {
      NewRegistrationPlaced(f.regs, name);
      var g := f.(regs := f.regs + [Registration(|f.regs| + 1, name, true)]);
      RegistrationAppended(f, g, name);
      SetMineKeeps(d, g);
    } else {
      RegistrationFound(f.regs, i);
    }
  }

  lemma TablesMineOk(d: Db)
    requires TablesOk(d.files, d.counts)
    ensures FileOk(Mine(d))
  {
  }

  lemma RegistrationFound(regs: seq<Registration>, i: nat)
    requires RegsOk(regs) && i < |regs|
    ensures regs[i].topicId == i + 1
  {
  }

  lemma NewRegistrationPlaced(regs: seq<Registration>, name: TopicName)
    requires RegsOk(regs)
    ensures var r := Registration(|regs| + 1, name, true);
            Write(regs, Place(regs, NoRegistration), r, NO_REGISTRATION) == regs + [r]
  {
    NoHoleMeansAppend(regs, NoRegistration);
  }

  lemma RegistrationAppended(f: Files, g: Files, name: TopicName)
    requires FileOk(f) && First(f.regs, RegistrationNamed(name)) == |f.regs|
    requires g == f.(regs := f.regs + [Registration(|f.regs| + 1, name, true)])
    ensures FileOk(g)
  {
    forall i | 0 <= i < |f.regs| ensures f.regs[i].name != name {
      assert !RegistrationNamed(name)(f.regs[i]);
    }
    forall i | 0 <= i < |f.subs| ensures SubOk(g.regs, g.subs[i]) {
      assert SubOk(f.regs, f.subs[i]);
    }
  }

  /** A known id names its registration. */
  lemma TopicNameFound(d: Db, id: nat)
    requires Open(d) && RegsOk(Mine(d).regs)
    ensures GetTopicName(d, id) == if 1 <= id <= |Mine(d).regs| then Some(Mine(d).regs[id - 1].name) else None
  {
    var regs := Mine(d).regs;
    if 1 <= id <= |regs| {
      FirstIs(regs, RegistrationWithId(id), id - 1);
    } else if id != 0 {
      FirstNone(regs, RegistrationWithId(id));
    }
  }

  // Deleting and adding clients

  lemma ReadyToRemove(s: Sys)
    requires Sound(s.db) && Ready(s.db)
    ensures SubscriptionCount(s.db) == |Mine(s.db).subs| && Removing(s, |Mine(s.db).subs|)
  {
    MineOk(s.db);
    var f := Mine(s.db);
    forall i | 0 <= i < |f.subs| ensures IsSubscription(f.subs[i]) {
      assert SubOk(f.regs, f.subs[i]);
    }
    CountAll(f.subs, IsSubscription, |f.subs|);
  }

  /** In the middle of a removal the subscription count is the number of slots left. */
  lemma RemovingCounts(s: Sys, k: nat)
    requires Removing(s, k)
    ensures SubscriptionCount(s.db) == k
  {
    var subs := Mine(s.db).subs;
    forall i | 0 <= i < k ensures IsSubscription(subs[i]) {
      assert SubOk(Mine(s.db).regs, subs[i]);
    }
    CountAll(subs, IsSubscription, k);
  }

  lemma FileDeleted(files: map<nat, Files>, counts: seq<GlobalCount>, n: nat)
    requires CountsOk(counts) && forall m | m in files && m != n :: FileOk(files[m])
    ensures TablesOk(files - {n}, counts)
  {
  }

  /** Deleting a client by id, with the files of the transaction's client: the invariant stays, the files are gone,
      no other file is touched, and each topic the client held has a count of one less. */
  lemma DropClientKeeps(s: Sys, id: ClientId)
    requires Sound(s.db) && Ready(s.db) && id != ""
    ensures var after := DropClient(s, id);
            && Sound(after.db) && Open(after.db) && after.db.missing
            && after == s.(db := after.db, broker := after.broker) && after.db.predefined == s.db.predefined
            && after.db.files == s.db.files - {s.db.entry.fileNumber}
            && after.db.registry == RowDeleted(s.db.registry, id)
            && (forall topic :: Released(s, after, topic, HoldsTopic(Mine(s.db).subs, topic)))
  {
    hide RemoveFrom, TablesOk, CountOf, HoldsTopic, RowsOk, EntryOk, First, DeleteClient;
    ReadyToRemove(s);
    RemoveFromKeeps(s, |Mine(s.db).subs|);
    var removed := RemoveSubscriptions(s);
    RemovingCounts(removed, 0);
    DeleteEmptied(removed, id);
    forall topic: string ensures Released(s, DropClient(s, id), topic, HoldsTopic(Mine(s.db).subs, topic)) {
      assert Released(s, removed, topic, HoldsTopic(Mine(s.db).subs, topic));
    }
  }

  /** With its files a client leaves all the topics it held, so the counts stay as right as they were. */
  lemma DropClientTallies(s: Sys, t: Sys, n: nat)
    requires t.db.files == s.db.files - {n}
    requires forall topic :: Released(s, t, topic, HoldsTopic(FilesAt(s.db.files, n).subs, topic))
    ensures Tallies(s, t)
  {
    forall topic: string ensures TopicTallies(s, t, topic) {
      OneHolderLess(s.db.files, n, topic);
      OneReleased(s, t, topic, HoldsTopic(FilesAt(s.db.files, n).subs, topic));
    }
    EachTallies(s, t);
  }

  /** Tallies, for one topic. */
  ghost predicate TopicTallies(s: Sys, t: Sys, topic: string) {
    var (c, h, b) := (CountOf(s.db.counts, topic), |Holders(s.db.files, topic)|, topic in s.broker);
    var (d, i, a) := (CountOf(t.db.counts, topic), |Holders(t.db.files, topic)|, topic in t.broker);
    && (c <= h ==> d <= i) && (c == h ==> d == i) && ((b <==> c > 0) ==> (a <==> d > 0))
    && ((b ==> c > 0) ==> (a ==> d > 0))
  }

  lemma EachTallies(s: Sys, t: Sys)
    requires forall topic :: TopicTallies(s, t, topic)
    ensures Tallies(s, t)
  {
    hide CountOf, Holders;
    forall topic: string
      ensures AtMost(s.db.files, s.db.counts) ==> CountOf(t.db.counts, topic) <= |Holders(t.db.files, topic)|
      ensures Conserved(s.db.files, s.db.counts) ==> CountOf(t.db.counts, topic) == |Holders(t.db.files, topic)|
      ensures BrokerOk(s.broker, s.db.counts) ==> (topic in t.broker <==> CountOf(t.db.counts, topic) > 0)
      ensures BrokerCounted(s.broker, s.db.counts) ==> (topic in t.broker ==> CountOf(t.db.counts, topic) > 0)
    {
      assert TopicTallies(s, t, topic);
    }
  }

  lemma OneReleased(s: Sys, t: Sys, topic: string, held: bool)
    requires Released(s, t, topic, held)
    requires |Holders(t.db.files, topic)| == |Holders(s.db.files, topic)| - if held then 1 else 0
    ensures TopicTallies(s, t, topic)
  {
    hide CountOf, Holders;
  }

  lemma OneHolderLess(files: map<nat, Files>, n: nat, topic: string)
    ensures |Holders(files - {n}, topic)| ==
            |Holders(files, topic)| - if HoldsTopic(FilesAt(files, n).subs, topic) then 1 else 0
  {
    hide HoldsTopic;
    HoldersAreFiles(files, topic);
    HoldersAreFiles(files - {n}, topic);
    assert !HoldsTopic([], topic) by { EmptyHoldsNothing(topic); }
    assert Holders(files - {n}, topic) == Holders(files, topic) - {n};
  }

  lemma EmptyHoldsNothing(topic: string)
    ensures !HoldsTopic([], topic)
  {
  }

  /** delete_client after the removal. */
  lemma DeleteEmptied(s: Sys, id: ClientId)
    requires Removing(s, 0) && SubscriptionCount(s.db) == 0 && id != ""
    ensures var d := DeleteClient(s.db, id);
            && Sound(d) && Open(d) && d.missing
            && d == s.db.(files := s.db.files - {s.db.entry.fileNumber}, entry := NO_CLIENT, missing := true,
                          registry := RowDeleted(s.db.registry, id))
  {
    hide CountsOk;
    FileDeleted(s.db.files, s.db.counts, s.db.entry.fileNumber);
    RowDeletedOk(s.db.registry, id);
  }

  /** The registry without the row of this id. */
  ghost function RowDeleted(rows: seq<Client>, id: string): seq<Client> {
    var i := First(rows, ById(id));
    if i < |rows| then rows[i := NO_CLIENT] else rows
  }

  lemma RowDeletedOk(rows: seq<Client>, id: ClientId)
    requires RowsOk(rows) && id != ""
    ensures RowsOk(RowDeleted(rows, id)) && |RowDeleted(rows, id)| == |rows|
    ensures forall c | c in RowDeleted(rows, id) :: c.id != id
  {
    IdGone(rows, id);
  }

  /** After its deletion no row carries the id. */
  lemma IdGone(rows: seq<Client>, id: ClientId)
    requires RowsOk(rows) && id != ""
    ensures var i := First(rows, ById(id));
            var after := if i < |rows| then rows[i := NO_CLIENT] else rows;
            forall c | c in after :: c.id != id
  {
    var i := First(rows, ById(id));
    forall j | 0 <= j < |rows| && j != i ensures rows[j].id != id {
      if j < i {
        assert !ById(id)(rows[j]);
      }
    }
  }

  /** A new client takes the first deleted row, or a new one. */
  lemma AddClientRowKeeps(d: Db, id: string, address: nat, duration: nat)
    requires Sound(d) && Open(d) && d.missing && 0 < |id| < MAXIMUM_CLIENT_ID_LENGTH && address != 0
    requires forall c | c in d.registry :: c.id != id
    ensures var e := Store.AddClient(d, id, address, duration);
            var n := First(d.registry, ById(""));
            && Sound(e) && Ready(e) && e.counts == d.counts
            && e.entry == Client(id, n, address, ACTIVE, duration, 0, 0, PINGREQ)
            && e.registry == (if n < |d.registry| then d.registry[n := e.entry] else d.registry + [e.entry])
            && e.files == d.files[n := FilesAt(d.files, n)]
            && (n < |d.registry| ==> d.registry[n] == NO_CLIENT)
  {
    hide TablesOk, RowsOk;
    var n := First(d.registry, ById(""));
    var c := Client(id, n, address, ACTIVE, duration, 0, 0, PINGREQ);
    FileCreated(d.files, d.counts, n);
    RowAdded(d.registry, c);
  }

  lemma FileCreated(files: map<nat, Files>, counts: seq<GlobalCount>, n: nat)
    requires TablesOk(files, counts)
    ensures TablesOk(files[n := FilesAt(files, n)], counts)
  {
    SameSubsKeep(files, counts, n, FilesAt(files, n));
  }

  lemma RowAdded(rows: seq<Client>, c: Client)
    requires RowsOk(rows) && c.id != "" && c.address != 0 && c.fileNumber == First(rows, ById("")) && c.status != EMPTY
    requires forall r | r in rows :: r.id != c.id
    ensures var n := c.fileNumber;
            var after := Write(rows, n, c, NO_CLIENT);
            && RowsOk(after) && n < |after| && after[n] == c
            && after == (if n < |rows| then rows[n := c] else rows + [c])
            && (n < |rows| ==> rows[n] == NO_CLIENT)
  {
    forall i | 0 <= i < |rows| ensures rows[i].id != c.id {
      assert rows[i] in rows;
    }
  }

  lemma ResetClientKeeps(d: Db, address: nat, duration: nat)
    requires Sound(d) && Ready(d) && address != 0
    ensures var e := ResetClient(d, d.entry.id, address, duration);
            var c := d.entry.(address := address, status := ACTIVE, duration := duration, timeout := 0,
                              awaitId := 0, await := PINGREQ);
            Sound(e) && Ready(e) && e == d.(entry := c, registry := d.registry[c.fileNumber := c])
  {
    var n := d.entry.fileNumber;
    forall j | 0 <= j < n ensures !ById(d.entry.id)(d.registry[j]) {
      assert d.registry[j].id == "" || d.registry[j].id != d.registry[n].id;
    }
    FirstIs(d.registry, ById(d.entry.id), n);
  }

  /** add_client, in all its cases. */
  lemma ConnectKeeps(s: Sys, id: string, duration: nat, clean: bool, address: nat)
    requires Inv(s) && id != "" && address != 0
    ensures Inv(Gateway.AddClient(s, id, duration, clean, address))
  {
    hide RowsOk, TablesOk, EntryOk, Store.AddClient, ResetClient, DropClient;
    if s.online {
      var open := s.(db := StartById(s.db, id));
      StartByIdKeeps(s.db, id);
      var dropped := DropClient(open, id);
      if |id| >= MAXIMUM_CLIENT_ID_LENGTH {
        NotStarted(open.db, id, address, duration * 1000);
      } else if !Ready(open.db) {
        AddClientRowKeeps(open.db, id, address, duration * 1000);
      } else if !clean {
        ResetClientKeeps(open.db, address, duration * 1000);
      } else {
        DropClientKeeps(open, id);
        RowDeletedOk(open.db.registry, id);
        AddClientRowKeeps(dropped.db, id, address, duration * 1000);
      }
      var broker := if Ready(open.db) && clean then dropped.broker else s.broker;
      var after := Gateway.AddClient(s, id, duration, clean, address);
      CloseKeeps(s.(db := AddedDb(s, id, duration, clean, address), broker := broker), after.log);
    }
  }

  /** The store at the end of add_client's transaction. */
  ghost function AddedDb(s: Sys, id: string, duration: nat, clean: bool, address: nat): Db {
    var open := StartById(s.db, id);
    if !Ready(open) then Store.AddClient(open, id, address, duration * 1000)
    else if !clean then ResetClient(open, id, address, duration * 1000)
    else Store.AddClient(DropClient(s.(db := open), id).db, id, address, duration * 1000)
  }

  lemma NotStarted(d: Db, id: string, address: nat, duration: nat)
    requires !Open(d)
    ensures Store.AddClient(d, id, address, duration) == d
  {
  }

  // The other operations

  lemma StatusKeeps(d: Db, status: Status)
    requires Sound(d) && status != EMPTY
    ensures Harmless(d, SetStatus(d, status)) && SetStatus(d, status).files == d.files
    ensures Ready(d) ==> Ready(SetStatus(d, status))
  {
    hide TablesOk, RowsOk, WriteEntry;
    if Ready(d) {
      EntryAddress(d);
      WriteEntryKeeps(d, d.entry.(status := status));
    }
  }

  lemma TimeoutKeeps(d: Db, timeout: nat)
    requires Sound(d)
    ensures Harmless(d, SetTimeout(d, timeout)) && SetTimeout(d, timeout).files == d.files
    ensures Ready(d) ==> Ready(SetTimeout(d, timeout))
  {
    hide TablesOk, RowsOk, WriteEntry;
    if Ready(d) {
      EntryAddress(d);
      WriteEntryKeeps(d, d.entry.(timeout := timeout));
    }
  }

  lemma AwaitKeeps(d: Db, await: Await)
    requires Sound(d)
    ensures Harmless(d, SetAwait(d, await)) && SetAwait(d, await).files == d.files
    ensures Ready(d) ==> Ready(SetAwait(d, await))
  {
    hide TablesOk, RowsOk, WriteEntry;
    if Ready(d) {
      EntryAddress(d);
      WriteEntryKeeps(d, d.entry.(await := await));
    }
  }

  lemma EntryAddress(d: Db)
    requires Sound(d) && Ready(d)
    ensures d.entry.address != 0 && d.entry.status != EMPTY
  {
  }

  /** set_client_await_msg_id rewrites the row with what is there. */
  lemma AwaitIdUnchanged(d: Db, msgId: nat)
    requires EntryOk(d)
    ensures SetAwaitId(d, msgId) == d
  {
    if Ready(d) {
      assert d.registry[d.entry.fileNumber := d.entry] == d.registry;
    }
  }

  /** Wills and queues are not part of the invariant. */
  lemma OtherFilesKeep(d: Db, will: Option<Will>, queue: seq<Publish>)
    requires Sound(d) && !d.missing
    ensures Sound(SetMine(d, Mine(d).(will := will, queue := queue)))
  {
    TablesMineOk(d);
    SetMineKeeps(d, Mine(d).(will := will, queue := queue));
  }

  /** Operations that rewrite the will or the queue, or nothing. */
  ghost predicate OnlyOtherFiles(d: Db, e: Db) {
    || e == d || e == d.(error := true)
    || (!d.missing && e == SetMine(d, Mine(d).(will := Mine(e).will, queue := Mine(e).queue)))
  }

  lemma OnlyOtherFilesKeep(d: Db, e: Db)
    requires Sound(d) && OnlyOtherFiles(d, e)
    ensures Harmless(d, e)
  {
    if !d.missing {
      OtherFilesKeep(d, Mine(e).will, Mine(e).queue);
    }
  }

  lemma FileOperationsKeep(d: Db)
    requires Sound(d)
    ensures forall topic, qos, retain :: Harmless(d, SetWillTopic(d, topic, qos, retain))
    ensures forall message :: Harmless(d, SetWillMessage(d, message))
    ensures Harmless(d, DeleteWill(d))
    ensures !d.missing ==> forall queue :: Harmless(d, SetMine(d, Mine(d).(queue := queue)))
    ensures forall data, topicId, retain, qos :: Harmless(d, AddPublish(d, data, topicId, retain, qos))
  {
    hide Sound, Enqueued;
    forall will, queue | !d.missing ensures Harmless(d, SetMine(d, Mine(d).(will := will, queue := queue))) {
      OnlyOtherFilesKeep(d, SetMine(d, Mine(d).(will := will, queue := queue)));
    }
    forall e | OnlyOtherFiles(d, e) ensures Harmless(d, e) {
      OnlyOtherFilesKeep(d, e);
    }
  }

  lemma ClosesTo(s: Sys, address: nat, e: Db, log: seq<Event>)
    requires Inv(s) && Harmless(StartByAddress(s.db, address), e)
    ensures Inv(s.(db := Apply(e), log := log)) && SameCounting(s, s.(db := Apply(e), log := log))
  {
  }

  lemma AwaitStepKeeps(s: Sys, address: nat, await: Await)
    requires Inv(s) && address != 0
    ensures var t := AwaitMessage(s, address, await); Inv(t) && SameCounting(s, t)
  {
    hide Inv, Harmless, SetAwait;
    Opened(s, address);
    AwaitKeeps(StartByAddress(s.db, address), await);
    ClosesTo(s, address, SetAwait(StartByAddress(s.db, address), await), s.log);
  }

  lemma Opened(s: Sys, address: nat)
    requires Inv(s) && address != 0
    ensures var d := StartByAddress(s.db, address); Sound(d) && Harmless(d, d)
    ensures Open(StartByAddress(s.db, address)) && SameTables(s.db, StartByAddress(s.db, address))
  {
    StartByAddressKeeps(s.db, address);
  }

  lemma WillStepsKeep(s: Sys, step: Step)
    requires Inv(s) && Legal(step) && (step.WillTopicStep? || step.WillMessageStep? || step.RemoveWillStep?)
    ensures var t := Do(s, step); Inv(t) && SameCounting(s, t)
  {
    hide Inv, Harmless, SetWillTopic, SetWillMessage, DeleteWill;
    var d := StartByAddress(s.db, step.address);
    Opened(s, step.address);
    FileOperationsKeep(d);
    match step {
      case WillTopicStep(_, topic, retain, qos) =>
        ClosesTo(s, step.address, if AwaitType(d) != WILLTOPIC then d else SetWillTopic(d, topic, qos, retain), s.log);
      case WillMessageStep(_, message) =>
        ClosesTo(s, step.address, if AwaitType(d) != WILLMSG then d else SetWillMessage(d, message), s.log);
      case RemoveWillStep(_) =>
        ClosesTo(s, step.address, DeleteWill(d), s.log);
    }
  }

  lemma RegisterKeeps(s: Sys, address: nat, name: TopicName)
    requires Inv(s) && address != 0
    ensures var t := RegisterTopic(s, address, name); Inv(t) && SameCounting(s, t)
  {
    hide Inv, Harmless, Store.AddRegistration;
    var d := StartByAddress(s.db, address);
    var e := Store.AddRegistration(d, name, 0).0;
    Opened(s, address);
    if Ready(d) {
      AddRegistrationKeeps(d, name, 0);
    } else {
      NoRegistrationMade(d, name);
    }
    SameCountsHarmless(d, e);
    ClosesTo(s, address, e, s.log);
  }

  lemma NoRegistrationMade(d: Db, name: TopicName)
    requires !Ready(d)
    ensures Store.AddRegistration(d, name, 0) == (d, 0)
  {
  }

  lemma SameCountsHarmless(d: Db, e: Db)
    requires Sound(e) && e.counts == d.counts && SameSubs(d.files, e.files)
    ensures Harmless(d, e)
  {
  }

  lemma SetStateKeeps(s: Sys, address: nat, status: Status)
    requires Inv(s) && address != 0 && status != EMPTY
    ensures var t := SetState(s, address, status); Inv(t) && SameCounting(s, t)
  {
    hide Inv, Harmless, SetStatus;
    Opened(s, address);
    StatusKeeps(StartByAddress(s.db, address), status);
    ClosesTo(s, address, SetStatus(StartByAddress(s.db, address), status), s.log);
  }

  lemma RegackKeeps(s: Sys, address: nat, msgId: nat, code: nat)
    requires Inv(s) && address != 0
    ensures var t := RegackArrived(s, address, msgId, code); Inv(t) && SameCounting(s, t)
  {
    hide Inv, Harmless, SetAwait;
    var d := StartByAddress(s.db, address);
    Opened(s, address);
    AwaitKeeps(d, PINGREQ);
    ClosesTo(s, address, SetAwait(d, PINGREQ), s.log + [RegackTaken(d.entry.fileNumber)]);
    ClosesTo(s, address, d, s.log);
  }

  lemma PubackKeeps(s: Sys, address: nat, queue: seq<Publish>)
    requires Inv(s) && address != 0
    ensures var t := PubackArrives(s, address, queue); Inv(t) && SameCounting(s, t)
  {
    hide Inv, Harmless, SetMine, Mine;
    var d := StartByAddress(s.db, address);
    Opened(s, address);
    FileOperationsKeep(d);
    if Ready(d) {
      ClosesTo(s, address, SetMine(d, Mine(d).(queue := queue)), s.log + [PubackArrived(d.entry.fileNumber)]);
    }
    ClosesTo(s, address, d, s.log);
  }

  lemma ReceivePublishKeeps(s: Sys, address: nat, topic: string, data: seq<int>, retain: bool)
    requires Inv(s) && address != 0
    ensures var t := ReceivePublish(s, address, topic, data, retain); Inv(t) && SameCounting(s, t)
  {
    hide Inv, Harmless, AddPublish;
    var d := StartByAddress(s.db, address);
    Opened(s, address);
    FileOperationsKeep(d);
    var e := if Ready(d) && d.entry.status in {ACTIVE, ASLEEP, AWAKE} && IsSubscribed(d, topic)
             then AddPublish(d, Shortened(data),
                             Mine(d).subs[First(Mine(d).subs, SubscriptionNamed(topic))].topicId, retain,
                             Mine(d).subs[First(Mine(d).subs, SubscriptionNamed(topic))].qos)
             else d;
    ClosesTo(s, address, e, s.log);
  }

  // SUBSCRIBE

  /** A resolved topic is registered under the id it resolves to. */
  lemma ResolveKeeps(d: Db, topicId: nat, shortTopic: bool)
    requires Sound(d) && Ready(d)
    ensures var (e, name, id) := Resolve(d, topicId, shortTopic);
            && Sound(e) && Ready(e) && e == d.(files := e.files) && Mine(e) == Mine(d).(regs := Mine(e).regs)
            && Mine(d).regs <= Mine(e).regs
            && OnlyMine(d, e) && SameSubs(d.files, e.files)
            && (name.Some? ==> 1 <= id <= |Mine(e).regs| && Mine(e).regs[id - 1].name == name.value)
  {
    hide RowsOk, TablesOk, EntryOk, Store.AddRegistration, GetTopicName;
    if shortTopic {
      TablesMineOk(d);
      TopicNameFound(d, topicId);
    } else if PredefinedName(d, topicId).Some? {
      AddRegistrationKeeps(d, PredefinedName(d, topicId).value, 0);
    }
  }

  /** The SUBSCRIBE is the topic's first, so the broker is asked. */
  ghost predicate AsksBroker(s: Sys, address: nat, topicId: nat, shortTopic: bool) {
    && s.online && Ready(StartByAddress(s.db, address))
    && var (resolved, name, id) := Resolve(StartByAddress(s.db, address), topicId, shortTopic);
       name.Some? && Enter(resolved, name.value, id, 0).1
  }

  /** Whether the subscription is the topic's first does not depend on the granted QoS. */
  lemma {:induction false} FirstIgnoresQos(d: Db, name: TopicName, id: nat, qos: nat)
    ensures Enter(d, name, id, qos).1 == Enter(d, name, id, 0).1
  {
  }

  /** SUBSCRIBE keeps the tables in order, whatever the broker answers. */
  lemma SubscribeKeeps(s: Sys, address: nat, topicId: nat, shortTopic: bool, qos: nat, accepted: bool)
    requires Inv(s) && address != 0
    ensures Inv(Gateway.AddSubscription(s, address, topicId, shortTopic, qos, accepted))
  {
    hide Sound, Resolve, Enter, CountOf, HoldsTopic, Decremented;
    if s.online {
      var open := StartByAddress(s.db, address);
      Opened(s, address);
      if !Ready(open) {
        ClosesTo(s, address, open, s.log);
      } else {
        ResolveKeeps(open, topicId, shortTopic);
        var (resolved, name, id) := Resolve(open, topicId, shortTopic);
        CloseKeeps(s.(db := resolved), s.log);
        if name.Some? {
          EnterKeeps(resolved, name.value, id, if qos >= 1 then 1 else 0);
          var entered := Enter(resolved, name.value, id, if qos >= 1 then 1 else 0).0;
          CloseKeeps(s.(db := entered), s.log);
          TakenBack(Apply(entered), name.value);
        }
      }
    }
  }

  lemma TakenBack(d: Db, name: string)
    requires Sound(d) && Idle(d)
    ensures Sound(Decrement(d, name)) && Idle(Decrement(d, name))
  {
    if name != "" {
      DecrementCounts(d.counts, name, name);
    }
  }

  // Visits of the loop

  lemma FinishKeeps(s: Sys, address: nat, e: Db, event: Event)
    requires Inv(s) && Harmless(StartByAddress(s.db, address), e)
    ensures var t := Finish(s, e, event); Inv(t) && SameCounting(s, t)
  {
  }

  lemma HandlePublishesKeeps(s: Sys, status: Status, address: nat, garbage: bool)
    requires Inv(s) && (status in {AWAKE, ACTIVE} ==> address != 0)
    ensures var t := HandlePublishes(s, status, address, garbage); Inv(t) && SameCounting(s, t)
  {
    hide Inv, Harmless, SendNext, HasPublishes;
    if status == AWAKE || status == ACTIVE {
      var d := StartByAddress(s.db, address);
      Opened(s, address);
      ClosesTo(s, address, d, s.log);
      SendNextKeeps(s, address, NextPublish(Mine(d).queue), garbage);
    }
  }

  lemma SendNextKeeps(s: Sys, address: nat, next: Publish, garbage: bool)
    requires Inv(s) && address != 0
    ensures var t := SendNext(s, StartByAddress(s.db, address), address, next, garbage); Inv(t) && SameCounting(s, t)
  {
    hide Inv, Sound, Harmless, SetAwait, SetAwaitId, RemovePublish, SetPublishMsgId, Finish, EntryOk, SameCounting,
      GetTopicName, StartByAddress, IsTopicKnown;
    var d := StartByAddress(s.db, address);
    Opened(s, address);
    var (checked, known) := IsTopicKnown(d, next.topicId, garbage);
    CheckedHarmless(d, next.topicId, garbage);
    var msgId := NextMsgId(AwaitId(checked));
    AwaitIdUnchanged(checked, msgId);
    SentHarmless(d, checked, next.publishId, msgId);
    ClosesTo(s, address, checked, s.log);
    var slot := checked.entry.fileNumber;
    if GetTopicName(checked, next.topicId).Some? {
      FinishKeeps(s, address, SetAwait(checked, REGACK),
                  RegisterSent(slot, address, next.topicId, msgId, GetTopicName(checked, next.topicId).value));
    }
    FinishKeeps(s, address, RemovePublish(checked, next.publishId), PublishSent(slot, address, 0, next));
    FinishKeeps(s, address, SetPublishMsgId(SetAwait(checked, PUBACK), next.publishId, msgId),
                PublishSent(slot, address, msgId, next));
  }

  lemma CheckedHarmless(d: Db, id: nat, garbage: bool)
    requires Sound(d)
    ensures var checked := IsTopicKnown(d, id, garbage).0; Harmless(d, checked) && Sound(checked) && EntryOk(checked)
  {
    hide RowsOk, TablesOk;
    ErrorHarmless(d);
  }

  /** What the three kinds of sending do inside the transaction. */
  lemma SentHarmless(d: Db, e: Db, publishId: nat, msgId: nat)
    requires Harmless(d, e) && Sound(e)
    ensures Harmless(d, SetAwait(e, REGACK)) && Harmless(d, RemovePublish(e, publishId))
    ensures Harmless(d, SetPublishMsgId(SetAwait(e, PUBACK), publishId, msgId))
  {
    hide Sound, Harmless, SetAwait, RemovePublish, SetPublishMsgId;
    var f := SetAwait(e, PUBACK);
    AwaitKeeps(e, REGACK);
    AwaitKeeps(e, PUBACK);
    HarmlessSound(e, f);
    QueueOperationsKeep(e, publishId, msgId);
    QueueOperationsKeep(f, publishId, msgId);
    HarmlessChain(d, e, SetAwait(e, REGACK));
    HarmlessChain(d, e, RemovePublish(e, publishId));
    HarmlessChain(d, e, f);
    HarmlessChain(d, f, SetPublishMsgId(f, publishId, msgId));
  }

  lemma HarmlessChain(d: Db, e: Db, f: Db)
    requires Harmless(d, e) && Harmless(e, f)
    ensures Harmless(d, f)
  {
  }

  lemma ErrorHarmless(d: Db)
    requires Sound(d)
    ensures Harmless(d, d) && Harmless(d, d.(error := true))
  {
  }

  lemma QueueOperationsKeep(d: Db, publishId: nat, msgId: nat)
    requires Sound(d)
    ensures Harmless(d, RemovePublish(d, publishId)) && Harmless(d, SetPublishMsgId(d, publishId, msgId))
  {
    hide Sound, Harmless;
    OnlyOtherFilesKeep(d, RemovePublish(d, publishId));
    OnlyOtherFilesKeep(d, SetPublishMsgId(d, publishId, msgId));
  }

  lemma AnswerPingKeeps(s: Sys, status: Status, address: nat)
    requires Inv(s) && (status == AWAKE ==> address != 0)
    ensures var t := AnswerPing(s, status, address); Inv(t) && SameCounting(s, t)
  {
    hide Inv, Harmless, HasPublishes, SetStatus;
    LookOnlyKeeps(s, address);
    if status == AWAKE {
      var d := StartByAddress(s.db, address);
      Opened(s, address);
      StatusKeeps(d, ASLEEP);
      FinishKeeps(s, address, SetStatus(d, ASLEEP), PingRespSent(d.entry.fileNumber, address));
    }
  }

  lemma HandleTimeoutKeeps(s: Sys, row: Client, elapsed: nat)
    requires Inv(s) && (row.status in {ACTIVE, ASLEEP, AWAKE} ==> row.address != 0 && row.id != "")
    ensures Inv(HandleTimeout(s, row, elapsed))
  {
    hide Inv, Sound, Harmless, SetTimeout, SetStatus, Expire;
    if row.status in {ACTIVE, ASLEEP, AWAKE} {
      var timeout := (row.timeout + elapsed) % 0x1_0000_0000;
      var d := StartByAddress(s.db, row.address);
      Opened(s, row.address);
      TimeoutKeeps(d, timeout);
      var timed := SetTimeout(d, timeout);
      ClosesTo(s, row.address, timed, s.log);
      HarmlessSound(d, timed);
      StatusKeeps(timed, LOST);
      HarmlessSound(timed, SetStatus(timed, LOST));
      ExpireKeeps(s.(db := SetStatus(timed, LOST)), row.id);
    }
  }

  lemma HarmlessSound(d: Db, e: Db)
    requires Harmless(d, e)
    ensures Sound(e) && e.counts == d.counts
  {
  }

  lemma ExpireKeeps(s: Sys, id: ClientId)
    requires Sound(s.db) && id != ""
    ensures Inv(Expire(s, id))
  {
    hide Sound, Inv, DropClient;
    CloseKeeps(s, s.log);
    if Ready(s.db) && Mine(s.db).will.Some? {
      var willed := s.(log := s.log + [WillPublished(s.db.entry.fileNumber, Mine(s.db).will.value)]);
      DropClientKeeps(willed, id);
      CloseKeeps(DropClient(willed, id), DropClient(willed, id).log);
    }
  }

  /** A row in use has an id and an address. */
  lemma RowInUse(rows: seq<Client>, n: nat)
    requires RowsOk(rows) && n < |rows| && rows[n].status != EMPTY
    ensures rows[n].id != "" && rows[n].address != 0
  {
  }

  lemma VisitKeeps(s: Sys, n: nat, heartbeat: Option<nat>, garbage: bool)
    requires Inv(s)
    ensures Inv(Visit(s, n, heartbeat, garbage))
  {
    hide Inv, HandlePublishes, AnswerPing, HandleTimeout, RowsOk;
    var row := NthClient(s.db, n);
    RowsInOrder(s);
    if n < |s.db.registry| && row.status != EMPTY {
      RowInUse(s.db.registry, n);
    }
    HandlePublishesKeeps(s, row.status, row.address, garbage);
    var served := HandlePublishes(s, row.status, row.address, garbage);
    AnswerPingKeeps(served, row.status, row.address);
    if heartbeat.Some? {
      HandleTimeoutKeeps(AnswerPing(served, row.status, row.address), row, heartbeat.value);
    }
  }

  lemma RowsInOrder(s: Sys)
    requires Inv(s)
    ensures RowsOk(s.db.registry)
  {
  }
}
