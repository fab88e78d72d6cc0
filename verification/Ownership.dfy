/** With addresses of their own, clients own their files: the counts are counts of live clients. */
module Ownership {
  import opened Bytes
  import opened Scan
  import opened Store
  import opened Gateway
  import opened Soundness
  import opened Operations
  import opened Unsubscribing
  import opened Conservation
  import opened Effects
  import opened Visits

  /** A row is put where the first deleted one is, or at the end. */
  ghost function Seat(rows: seq<Client>, c: Client): seq<Client> {
    if c.fileNumber < |rows| then rows[c.fileNumber := c] else rows + [c]
  }

  /** The tables a new client finds: those without its earlier self. */
  ghost function RowsFor(rows: seq<Client>, id: string): seq<Client> { RowDeleted(rows, id) }

  ghost function FilesFor(rows: seq<Client>, files: map<nat, Files>, id: string): map<nat, Files> {
    var m := First(rows, ById(id));
    if m < |rows| then files - {m} else files
  }

  /** The slot a CONNECT ends in. */
  ghost function ConnectSlot(rows: seq<Client>, id: string, clean: bool): nat {
    var m := First(rows, ById(id));
    if m < |rows| && !clean then m else First(RowsFor(rows, id), ById(""))
  }

  ghost function NewClient(rows: seq<Client>, id: ClientId, duration: nat, clean: bool, address: nat): Client {
    Client(id, ConnectSlot(rows, id, clean), address, ACTIVE, duration * 1000, 0, 0, PINGREQ)
  }

  /** CONNECT, in full: refused without the broker or with a long id; otherwise the client's row is as new, in its old
      slot with its old files, or without files of its own in the first free slot. */
  lemma ConnectEffect(s: Sys, id: string, duration: nat, clean: bool, address: nat)
    requires Inv(s) && id != "" && address != 0
    ensures var t := Gateway.AddClient(s, id, duration, clean, address);
            var rows, files := s.db.registry, s.db.files;
            if !s.online || |id| >= MAXIMUM_CLIENT_ID_LENGTH then
              t.db.registry == rows && t.db.files == files && t.log == s.log
            else
              var c := NewClient(rows, id, duration, clean, address);
              && t.log == s.log + [Connected(c.fileNumber)]
              && (if First(rows, ById(id)) < |rows| && !clean then
                    c.fileNumber < |rows| && t.db.registry == rows[c.fileNumber := c] && t.db.files == files
                  else
                    && c.fileNumber <= |rows| && t.db.registry == Seat(RowsFor(rows, id), c)
                    && (c.fileNumber < |rows| ==> RowsFor(rows, id)[c.fileNumber] == NO_CLIENT)
                    && t.db.files ==
                       FilesFor(rows, files, id)[c.fileNumber := FilesAt(FilesFor(rows, files, id), c.fileNumber)])
  {
    hide RowsOk, TablesOk, EntryOk, Store.AddClient, ResetClient, DropClient, Sound;
    if s.online && |id| < MAXIMUM_CLIENT_ID_LENGTH {
      var open := s.(db := StartById(s.db, id));
      StartByIdKeeps(s.db, id);
      InvSound(s);
      if !Ready(open.db) {
        AddClientRowKeeps(open.db, id, address, duration * 1000);
      } else if !clean {
        OpenedRow(s, id);
        ResetClientKeeps(open.db, address, duration * 1000);
      } else {
        OpenedRow(s, id);
        DropClientKeeps(open, id);
        SoundEntry(open.db);
        RowDeletedOk(open.db.registry, id);
        AddClientRowKeeps(DropClient(open, id).db, id, address, duration * 1000);
      }
    } else if s.online {
      StartByIdKeeps(s.db, id);
      InvSound(s);
      NotStarted(StartById(s.db, id), id, address, duration * 1000);
    }
  }

  lemma InvSound(s: Sys)
    requires Inv(s)
    ensures Sound(s.db) && Idle(s.db) && RowsOk(s.db.registry)
  {
  }

  /** A client found by its id is in its own row. */
  lemma OpenedRow(s: Sys, id: string)
    requires Inv(s) && id != "" && Ready(StartById(s.db, id)) && |id| < MAXIMUM_CLIENT_ID_LENGTH
    ensures var d := StartById(s.db, id);
            var m := First(s.db.registry, ById(id));
            m < |s.db.registry| && d.entry == s.db.registry[m] && d.entry.fileNumber == m && d.entry.id == id
  {
  }

  /** The hypothesis on addresses: no CONNECT comes from an address another client is known under. */
  ghost predicate OwnAddress(s: Sys, step: Step) {
    step.Connect? ==> forall c | c in s.db.registry && c.id != "" && c.id != step.id :: c.address != step.address
  }

  lemma KeptOwned(d: Db, e: Db)
    requires Owned(d) && Kept(d, e)
    ensures Owned(e)
  {
  }

  lemma SameRowsOwned(d: Db, e: Db)
    requires Owned(d) && e.registry == d.registry && e.files == d.files
    ensures Owned(e)
  {
  }

  /** CONNECT keeps files owned and addresses distinct, and a new client starts without files. */
  lemma ConnectOwned(s: Sys, id: string, duration: nat, clean: bool, address: nat)
    requires Inv(s) && Owned(s.db) && id != "" && address != 0 && OwnAddress(s, Connect(id, duration, clean, address))
    ensures Owned(Gateway.AddClient(s, id, duration, clean, address).db)
    ensures var m := First(s.db.registry, ById(id));
            !(m < |s.db.registry| && !clean) ==>
              ConnectSlot(s.db.registry, id, clean) !in FilesFor(s.db.registry, s.db.files, id)
  {
    hide Gateway.AddClient, Inv, RowsOk, OwnedTables, Seat, FilesFor, RowsFor;
    ConnectEffect(s, id, duration, clean, address);
    InvSound(s);
    if s.online && |id| < MAXIMUM_CLIENT_ID_LENGTH {
      var rows, files := s.db.registry, s.db.files;
      var c := NewClient(rows, id, duration, clean, address);
      OtherAddresses(rows, id, address);
      if First(rows, ById(id)) < |rows| && !clean {
        ResetOwned(rows, files, c);
      } else {
        DroppedOwned(rows, files, id, address);
        SeatOwned(RowsFor(rows, id), FilesFor(rows, files, id), c);
      }
    }
    DroppedOwned(s.db.registry, s.db.files, id, address);
    if !(First(s.db.registry, ById(id)) < |s.db.registry| && !clean) {
      FreeSlotHasNoFiles(s.db.registry, s.db.files, id, clean);
    }
  }

  /** The other clients' addresses differ from this one. */
  ghost predicate OthersElsewhere(rows: seq<Client>, k: nat, address: nat) {
    forall i | 0 <= i < |rows| && i != k && rows[i].id != "" :: rows[i].address != address
  }

  lemma OtherAddresses(rows: seq<Client>, id: string, address: nat)
    requires RowsOk(rows) && id != ""
    requires forall c | c in rows && c.id != "" && c.id != id :: c.address != address
    ensures OthersElsewhere(rows, First(rows, ById(id)), address)
  {
    forall i | 0 <= i < |rows| && i != First(rows, ById(id)) && rows[i].id != "" ensures rows[i].address != address {
      OtherId(rows, id, i);
      assert rows[i] in rows;
    }
  }

  lemma ResetOwned(rows: seq<Client>, files: map<nat, Files>, c: Client)
    requires OwnedTables(rows, files) && c.fileNumber < |rows| && c.id != ""
    requires OthersElsewhere(rows, c.fileNumber, c.address)
    ensures OwnedTables(rows[c.fileNumber := c], files)
  {
  }

  lemma DroppedOwned(rows: seq<Client>, files: map<nat, Files>, id: string, address: nat)
    requires OwnedTables(rows, files)
    ensures OwnedTables(RowsFor(rows, id), FilesFor(rows, files, id)) && |RowsFor(rows, id)| == |rows|
    ensures OthersElsewhere(rows, First(rows, ById(id)), address) ==>
      forall k: nat :: OthersElsewhere(RowsFor(rows, id), k, address)
  {
  }

  lemma SeatOwned(rows: seq<Client>, files: map<nat, Files>, c: Client)
    requires OwnedTables(rows, files) && c.fileNumber <= |rows| && c.id != ""
    requires OthersElsewhere(rows, c.fileNumber, c.address)
    ensures OwnedTables(Seat(rows, c), files[c.fileNumber := FilesAt(files, c.fileNumber)])
  {
  }

  lemma FreeSlotHasNoFiles(rows: seq<Client>, files: map<nat, Files>, id: string, clean: bool)
    requires OwnedTables(RowsFor(rows, id), FilesFor(rows, files, id))
    requires !(First(rows, ById(id)) < |rows| && !clean)
    ensures ConnectSlot(rows, id, clean) !in FilesFor(rows, files, id)
  {
    hide DistinctAddresses, FilesFor, RowsFor;
    var free := RowsFor(rows, id);
    var n := First(free, ById(""));
    assert n < |free| ==> free[n].id == "";
  }

  lemma OtherId(rows: seq<Client>, id: string, i: nat)
    requires RowsOk(rows) && id != "" && i < |rows| && i != First(rows, ById(id))
    ensures rows[i].id != id
  {
    var m := First(rows, ById(id));
    if i < m {
      assert !ById(id)(rows[i]);
    }
  }

  /** A visit to a deleted row, or past the end, changes nothing. */
  lemma EmptyVisit(s: Sys, n: nat, heartbeat: Option<nat>, garbage: bool)
    requires Inv(s) && (n < |s.db.registry| ==> s.db.registry[n].id == "")
    ensures var t := Visit(s, n, heartbeat, garbage);
            Inv(t) && SameTables(s.db, t.db) && t.log == s.log && t.online == s.online
  {
    LookOnlyKeeps(s, 0);
  }

  /** A visit to a row in use touches that row and its files only; the client stays where it is or is gone. */
  lemma VisitOnly(s: Sys, n: nat, heartbeat: Option<nat>, garbage: bool)
    requires Inv(s) && Owned(s.db) && n < |s.db.registry| && s.db.registry[n].id != ""
    ensures var t := Visit(s, n, heartbeat, garbage);
            && Inv(t) && Owned(t.db) && OnlyAt(s.db, t.db, n)
            && (if t.db.registry[n].id == "" then n !in t.db.files
                else
                  && t.db.registry[n].id == s.db.registry[n].id && t.db.registry[n].address == s.db.registry[n].address
                  && t.db.registry[n].duration == s.db.registry[n].duration
                  && FilesAt(s.db.files, n).regs <= FilesAt(t.db.files, n).regs)
  {
    hide Inv, HandleTimeout, Kept, OnlyAt, Owned, AnswerPing, HandlePublishes;
    VisitKeeps(s, n, heartbeat, garbage);
    OwnedDistinct(s.db);
    ServedServes(s, n, garbage);
    var served := Served(s, n, garbage);
    ServedFacts(s.db, served.db, n);
    KeptOwned(s.db, served.db);
    if heartbeat.Some? {
      HandleTimeoutAt(served, n, s.db.registry[n], heartbeat.value);
      var after := HandleTimeout(served, s.db.registry[n], heartbeat.value).db;
      OnlyAtChain(s.db, served.db, after, n);
      ChangedOwned(served.db, after, n);
    }
  }

  lemma OwnedDistinct(d: Db)
    requires Owned(d)
    ensures DistinctAddresses(d.registry)
  {
  }

  /** One row that keeps its name and address, or goes with its files. */
  lemma ChangedOwned(d: Db, e: Db, n: nat)
    requires Owned(d) && OnlyAt(d, e, n) && n < |d.registry|
    requires || (e.registry[n].id == "" && n !in e.files)
             || (e.files == d.files && e.registry[n].id == d.registry[n].id
                 && e.registry[n].address == d.registry[n].address)
    ensures Owned(e)
  {
  }

  lemma ServedFacts(d: Db, e: Db, n: nat)
    requires Kept(d, e) && n < |d.registry|
    ensures |e.registry| == |d.registry|
    ensures var c := e.registry[n]; c == d.registry[n].(status := c.status, await := c.await)
    ensures FilesAt(d.files, n).regs <= FilesAt(e.files, n).regs
  {
  }

  lemma OwnedStep(s: Sys, step: Step)
    requires Inv(s) && Owned(s.db) && Legal(step) && OwnAddress(s, step)
    ensures Owned(Do(s, step).db)
  {
    hide Inv, Kept, Gateway.AddClient, Visit, OwnAddress, Owned;
    match step {
      case Connect(id, duration, clean, address) => ConnectOwned(s, id, duration, clean, address);
      case VisitStep(n, heartbeat, garbage) =>
        if n < |s.db.registry| && s.db.registry[n].id != "" {
          VisitOnly(s, n, heartbeat, garbage);
        } else {
          EmptyVisit(s, n, heartbeat, garbage);
          SameRowsOwned(s.db, Do(s, step).db);
        }
      case _ =>
        QuietKept(s, step);
        KeptOwned(s.db, Do(s, step).db);
    }
  }

  /** A good run in which addresses stay distinct. */
  ghost predicate OwnedRun(s: Sys, steps: seq<Step>) {
    steps != [] ==>
      var before := steps[..|steps| - 1];
      && OwnedRun(s, before)
      && Legal(steps[|steps| - 1]) && !MakesHole(Run(s, before), steps[|steps| - 1])
      && OwnAddress(Run(s, before), steps[|steps| - 1])
  }

  lemma {:induction false} OwnedRunKeeps(s: Sys, steps: seq<Step>)
    requires Inv(s) && Owned(s.db) && OwnedRun(s, steps)
    ensures Inv(Run(s, steps)) && Owned(Run(s, steps).db)
  {
    hide Inv, Owned, Do, MakesHole, OwnAddress;
    if steps != [] {
      var before := steps[..|steps| - 1];
      OwnedRunKeeps(s, before);
      StepKeepsIff(Run(s, before), steps[|steps| - 1]);
      OwnedStep(Run(s, before), steps[|steps| - 1]);
    }
  }

  /** The live clients, by row, that are subscribed to the topic. */
  ghost function Subscribers(d: Db, topic: string): set<nat> {
    set n | 0 <= n < |d.registry| && d.registry[n].id != "" && HoldsTopic(FilesAt(d.files, n).subs, topic)
  }

  /** With distinct addresses, every count is the number of live clients subscribed to its topic. */
  lemma CountsAreSubscribers(s: Sys, steps: seq<Step>)
    requires Fresh(s) && OwnedRun(s, steps) && CountedRun(s, steps)
    ensures var d := Run(s, steps).db; forall topic: string :: CountOf(d.counts, topic) == |Subscribers(d, topic)|
  {
    hide Run, OwnedRun, CountedRun, CountOf, Inv, Owned;
    FreshIsSound(s);
    FreshOwned(s);
    OwnedRunKeeps(s, steps);
    CountsAreConserved(s, steps);
    var d := Run(s, steps).db;
    forall topic: string ensures CountOf(d.counts, topic) == |Subscribers(d, topic)| {
      HoldersAreSubscribers(d, topic);
      assert CountOf(d.counts, topic) == |Holders(d.files, topic)|;
    }
  }

  lemma FreshOwned(s: Sys)
    requires Fresh(s)
    ensures Owned(s.db)
  {
  }

  lemma HoldersAreSubscribers(d: Db, topic: string)
    requires Owned(d)
    ensures Holders(d.files, topic) == Subscribers(d, topic)
  {
  }
}
