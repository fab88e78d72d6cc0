/** What one visit of the loop does: it serves one row, its files, and nothing else. */
module Visits {
  import opened Bytes
  import opened Scan
  import opened Store
  import opened Gateway
  import opened Soundness
  import opened Operations
  import opened Effects

  /** Files belong to rows in use, and rows in use have addresses of their own. */
  ghost predicate Owned(d: Db) {
    OwnedTables(d.registry, d.files)
  }

  ghost predicate OwnedTables(rows: seq<Client>, files: map<nat, Files>) {
    (forall n | n in files :: n < |rows| && rows[n].id != "") && DistinctAddresses(rows)
  }

  ghost predicate DistinctAddresses(rows: seq<Client>) {
    forall i, j | 0 <= i < j < |rows| && rows[i].id != "" && rows[j].id != "" :: rows[i].address != rows[j].address
  }

  /** Kept, at one slot only. */
  ghost predicate Serves(d: Db, e: Db, k: nat) {
    Kept(d, e) && OnlyAt(d, e, k)
  }

  lemma ServesChain(d: Db, e: Db, f: Db, k: nat)
    requires Serves(d, e, k) && Serves(e, f, k)
    ensures Serves(d, f, k)
  {
    hide OnlyAt;
    KeptChain(d, e, f);
    OnlyAtChain(d, e, f, k);
  }

  lemma OnlyAtChain(d: Db, e: Db, f: Db, k: nat)
    requires OnlyAt(d, e, k) && OnlyAt(e, f, k)
    ensures OnlyAt(d, f, k)
  {
  }

  /** The transaction by the address of row n is about row n. */
  lemma OwnRow(s: Sys, n: nat)
    requires Inv(s) && DistinctAddresses(s.db.registry) && n < |s.db.registry| && s.db.registry[n].id != ""
    ensures var d := StartByAddress(s.db, s.db.registry[n].address);
            && Sound(d) && Ready(d) && d.entry == s.db.registry[n] && d.entry.fileNumber == n && SameTables(s.db, d)
  {
    var rows, a := s.db.registry, s.db.registry[n].address;
    forall j | 0 <= j < n ensures !ByAddress(a)(rows[j]) {
      assert rows[j].id == "" ==> rows[j] == NO_CLIENT;
    }
    FirstIs(rows, ByAddress(a), n);
    StartByAddressKeeps(s.db, a);
  }

  /** A transaction that only touches its client serves that client. */
  lemma TransactionServes(s: Sys, address: nat, e: Db, k: nat)
    requires var d := StartByAddress(s.db, address);
             && Kept(d, e) && (e.registry == d.registry || (k < |d.registry| && e.registry == d.registry[k := e.entry]))
             && (e.files == d.files || e.files == d.files[k := FilesAt(e.files, k)])
    ensures Serves(s.db, Apply(e), k)
  {
  }

  /** The operations a visit makes inside its transactions, at the entry's slot. */
  ghost predicate AtEntry(d: Db, e: Db) {
    && Kept(d, e) && e.entry.fileNumber == d.entry.fileNumber
    && (e.registry == d.registry
        || (d.entry.fileNumber < |d.registry| && e.registry == d.registry[d.entry.fileNumber := e.entry]))
    && (e.files == d.files || e.files == d.files[d.entry.fileNumber := Mine(e)])
  }

  lemma AtEntrySame(d: Db, e: Db)
    requires e == d || e == d.(error := true)
    ensures AtEntry(d, e)
  {
    KeptSame(d, e);
  }

  lemma StatusAtEntry(d: Db, status: Status)
    requires EntryOk(d)
    ensures AtEntry(d, SetStatus(d, status))
  {
    hide WriteEntry;
    AtEntrySame(d, d);
    if Ready(d) {
      EntryRowKept(d, d.entry.(status := status));
      WrittenEntry(d, d.entry.(status := status));
    }
  }

  lemma WrittenEntry(d: Db, c: Client)
    ensures WriteEntry(d, c).entry == c
  {
  }

  lemma AwaitAtEntry(d: Db, await: Await)
    requires EntryOk(d)
    ensures AtEntry(d, SetAwait(d, await)) && EntryOk(SetAwait(d, await))
  {
    hide WriteEntry;
    AtEntrySame(d, d);
    if Ready(d) {
      EntryRowKept(d, d.entry.(await := await));
      WrittenEntry(d, d.entry.(await := await));
      EntryStays(d, d.entry.(await := await));
    }
  }

  lemma EntryStays(d: Db, c: Client)
    requires EntryOk(d) && Ready(d) && c.fileNumber == d.entry.fileNumber && c.id == d.entry.id
    ensures EntryOk(WriteEntry(d, c))
  {
  }

  lemma QueueAtEntry(d: Db, publishId: nat, msgId: nat)
    requires EntryOk(d)
    ensures AtEntry(d, RemovePublish(d, publishId)) && AtEntry(d, SetPublishMsgId(d, publishId, msgId))
    ensures RemovePublish(d, publishId).registry == d.registry
    ensures SetPublishMsgId(d, publishId, msgId).registry == d.registry
  {
    hide EntryOk, Kept;
    FileOperationsKept(d);
  }

  /** The await type goes from PINGREQ to REGACK or PUBACK before the queue is touched. */
  lemma AwaitThenQueue(d: Db, publishId: nat, msgId: nat)
    requires EntryOk(d)
    ensures AtEntry(d, SetPublishMsgId(SetAwait(d, PUBACK), publishId, msgId))
  {
    hide EntryOk, Kept, SetAwait, SetPublishMsgId;
    var e := SetAwait(d, PUBACK);
    AwaitAtEntry(d, PUBACK);
    QueueAtEntry(e, publishId, msgId);
    var f := SetPublishMsgId(e, publishId, msgId);
    KeptChain(d, e, f);
    EntryOnly(d, e);
    QueueEntry(e, publishId, msgId);
  }

  lemma EntryOnly(d: Db, e: Db)
    requires e == SetAwait(d, PUBACK)
    ensures e.files == d.files && e.entry.fileNumber == d.entry.fileNumber
    ensures e.registry == d.registry || e.registry == Write(d.registry, d.entry.fileNumber, e.entry, NO_CLIENT)
  {
  }

  lemma QueueEntry(d: Db, publishId: nat, msgId: nat)
    ensures SetPublishMsgId(d, publishId, msgId).entry == d.entry
  {
  }

  lemma ServesFrom(s: Sys, n: nat, e: Db)
    requires Inv(s) && DistinctAddresses(s.db.registry) && n < |s.db.registry| && s.db.registry[n].id != ""
    requires AtEntry(StartByAddress(s.db, s.db.registry[n].address), e)
    ensures Serves(s.db, Apply(e), n)
  {
    OwnRow(s, n);
    TransactionServes(s, s.db.registry[n].address, e, n);
  }

  /** Whatever is sent, the transaction has touched its client only. */
  lemma SendNextAtEntry(s: Sys, d: Db, address: nat, next: Publish, garbage: bool) returns (e: Db)
    requires Sound(d)
    ensures AtEntry(d, e) && SendNext(s, d, address, next, garbage).db == Apply(e) && e.entry.status == d.entry.status
  {
    hide Sound, EntryOk, AtEntry, SetAwait, SetAwaitId, RemovePublish, SetPublishMsgId;
    SoundEntry(d);
    StatusStays(d, next.publishId, NextMsgId(AwaitId(d)));
    var (checked, known) := IsTopicKnown(d, next.topicId, garbage);
    e := checked;
    if checked.error || (!known && GetTopicName(checked, next.topicId).None?) || (known && next.qos > 1) {
      AtEntrySame(d, checked);
    } else {
      var msgId := NextMsgId(AwaitId(d));
      AwaitIdUnchanged(d, msgId);
      if !known {
        AwaitAtEntry(d, REGACK);
        e := SetAwait(d, REGACK);
      } else if next.qos == 0 {
        QueueAtEntry(d, next.publishId, 0);
        e := RemovePublish(d, next.publishId);
      } else {
        AwaitThenQueue(d, next.publishId, msgId);
        e := SetPublishMsgId(SetAwait(d, PUBACK), next.publishId, msgId);
      }
    }
  }

  /** Sending changes no client's status. */
  lemma StatusStays(d: Db, publishId: nat, msgId: nat)
    ensures SetAwait(d, REGACK).entry.status == d.entry.status
    ensures RemovePublish(d, publishId).entry.status == d.entry.status
    ensures SetPublishMsgId(SetAwait(d, PUBACK), publishId, msgId).entry.status == d.entry.status
  {
  }

  lemma HandlePublishesAtEntry(s: Sys, status: Status, address: nat, garbage: bool) returns (e: Db)
    requires Sound(StartByAddress(s.db, address)) && status in {AWAKE, ACTIVE}
    ensures AtEntry(StartByAddress(s.db, address), e) && HandlePublishes(s, status, address, garbage).db == Apply(e)
    ensures e.entry.status == StartByAddress(s.db, address).entry.status
  {
    hide Sound, AtEntry, SendNext, HasPublishes;
    var d := StartByAddress(s.db, address);
    if AwaitType(d) != PINGREQ || !HasPublishes(d) {
      e := d;
      AtEntrySame(d, d);
    } else {
      e := SendNextAtEntry(s, d, address, NextPublish(Mine(d).queue), garbage);
    }
  }

  lemma HandlePublishesServes(s: Sys, n: nat, garbage: bool)
    requires Inv(s) && DistinctAddresses(s.db.registry) && n < |s.db.registry| && s.db.registry[n].id != ""
    ensures Serves(s.db, HandlePublishes(s, s.db.registry[n].status, s.db.registry[n].address, garbage).db, n)
  {
    hide Inv, Sound, Kept, OnlyAt, AtEntry, SendNext;
    var row := s.db.registry[n];
    if row.status in {AWAKE, ACTIVE} {
      OwnRow(s, n);
      var e := HandlePublishesAtEntry(s, row.status, row.address, garbage);
      ServesFrom(s, n, e);
    } else {
      NothingServed(s.db, s.db, n);
    }
  }

  lemma NothingServed(d: Db, e: Db, n: nat)
    requires SameTables(d, e)
    ensures Serves(d, e, n)
  {
    KeptSame(d, e);
  }

  lemma AnswerPingServes(s: Sys, n: nat, status: Status)
    requires Inv(s) && DistinctAddresses(s.db.registry) && n < |s.db.registry| && s.db.registry[n].id != ""
    ensures Serves(s.db, AnswerPing(s, status, s.db.registry[n].address).db, n)
  {
    hide Inv, Sound, Kept, OnlyAt, AtEntry, SetStatus, HasPublishes;
    var d := StartByAddress(s.db, s.db.registry[n].address);
    AtEntrySame(d, d);
    ServesFrom(s, n, d);
    OwnRow(s, n);
    SoundEntry(d);
    StatusAtEntry(d, ASLEEP);
    ServesFrom(s, n, SetStatus(d, ASLEEP));
  }

  /** The first part of a visit, before the heartbeat. */
  ghost function Served(s: Sys, n: nat, garbage: bool): Sys {
    var row := NthClient(s.db, n);
    AnswerPing(HandlePublishes(s, row.status, row.address, garbage), row.status, row.address)
  }

  lemma ServedServes(s: Sys, n: nat, garbage: bool)
    requires Inv(s) && DistinctAddresses(s.db.registry) && n < |s.db.registry| && s.db.registry[n].id != ""
    ensures Inv(Served(s, n, garbage)) && Serves(s.db, Served(s, n, garbage).db, n)
    ensures DistinctAddresses(Served(s, n, garbage).db.registry)
  {
    hide Inv, AnswerPing, HandlePublishes, Serves, DistinctAddresses;
    var row := s.db.registry[n];
    LiveRow(s, n);
    HandlePublishesKeeps(s, row.status, row.address, garbage);
    HandlePublishesServes(s, n, garbage);
    var t := HandlePublishes(s, row.status, row.address, garbage);
    ServedRow(s.db, t.db, n);
    AnswerPingKeeps(t, row.status, row.address);
    AnswerPingServes(t, n, row.status);
    var u := AnswerPing(t, row.status, row.address);
    ServesChain(s.db, t.db, u.db, n);
    ServedRow(s.db, u.db, n);
  }

  lemma LiveRow(s: Sys, n: nat)
    requires Inv(s) && n < |s.db.registry| && s.db.registry[n].id != ""
    ensures var c := s.db.registry[n]; c.address != 0 && c.fileNumber == n && c.status != EMPTY
  {
  }

  lemma ServedRow(d: Db, e: Db, n: nat)
    requires Serves(d, e, n) && DistinctAddresses(d.registry)
    ensures DistinctAddresses(e.registry) && |e.registry| == |d.registry|
    ensures n < |d.registry| ==>
      && e.registry[n].address == d.registry[n].address && e.registry[n].id == d.registry[n].id
      && e.registry[n].timeout == d.registry[n].timeout && e.registry[n].duration == d.registry[n].duration
  {
  }

  /** What a heartbeat that times out a client's row writes: the sum, and past the tolerance also LOST. */
  lemma TimeoutStates(s: Sys, row: Client, elapsed: nat) returns (timed: Db, lost: Db)
    requires Inv(s) && row.status in {ACTIVE, ASLEEP, AWAKE} && row.address != 0
    ensures var timeout := (row.timeout + elapsed) % 0x1_0000_0000;
            && HandleTimeout(s, row, elapsed) ==
               (if timeout <= Tolerance(row.duration) then s.(db := Apply(timed)) else Expire(s.(db := lost), row.id))
            && var d := StartByAddress(s.db, row.address);
               if Ready(d) then
                 && RowAt(d, timed, d.entry.(timeout := timeout))
                 && RowAt(d, lost, d.entry.(timeout := timeout, status := LOST))
               else timed == d && lost == d && SameTables(s.db, d)
    ensures timed == SetTimeout(StartByAddress(s.db, row.address), (row.timeout + elapsed) % 0x1_0000_0000)
    ensures lost == SetStatus(timed, LOST) && Sound(lost)
  {
    hide Inv, Sound, SetTimeout, SetStatus, Expire, Tolerance;
    var timeout := (row.timeout + elapsed) % 0x1_0000_0000;
    var d := StartByAddress(s.db, row.address);
    Opened(s, row.address);
    TimeoutKeeps(d, timeout);
    timed := SetTimeout(d, timeout);
    HarmlessSound(d, timed);
    StatusKeeps(timed, LOST);
    lost := SetStatus(timed, LOST);
    HarmlessSound(timed, lost);
    if Ready(d) {
      TimeoutWritten(d, timeout);
      StatusWritten(timed, LOST);
    } else {
      NotReadyUntouched(d, timeout);
    }
  }

  /** The transaction's row rewritten. */
  ghost predicate RowAt(d: Db, e: Db, c: Client) {
    && c.fileNumber == d.entry.fileNumber < |d.registry| && d.registry[c.fileNumber] == d.entry
    && e == d.(entry := c, registry := d.registry[c.fileNumber := c])
  }

  /** The silence a client is allowed (section 7.2 of MQTT-SN v1.2): 10 percent above a duration of more than a minute,
      and 50 percent above a shorter one. */
  predicate Within(duration: nat, silence: nat) {
    if duration > 60000 then 10 * silence <= 11 * duration else 2 * silence <= 3 * duration
  }

  lemma ToleranceIs(duration: nat, silence: nat)
    ensures silence <= Tolerance(duration) <==> Within(duration, silence)
  {
  }

  /** The heartbeat part of a visit to row n, whose row was read before: the 32-bit sum is stored, and past the
      tolerance the client is lost; if it has a will, the will is published and its row and files go. */
  lemma HandleTimeoutAt(s: Sys, n: nat, row: Client, elapsed: nat)
    requires Inv(s) && DistinctAddresses(s.db.registry) && n < |s.db.registry| && s.db.registry[n].id != ""
    requires row.id == s.db.registry[n].id && row.address == s.db.registry[n].address
    ensures var timeout := (row.timeout + elapsed) % 0x1_0000_0000;
            var t, after := HandleTimeout(s, row, elapsed), HandleTimeout(s, row, elapsed).db;
            var c, will := s.db.registry[n], FilesAt(s.db.files, n).will;
            && OnlyAt(s.db, after, n)
            && (if row.status !in {ACTIVE, ASLEEP, AWAKE} then after == s.db && t.log == s.log
                else if Within(row.duration, timeout) then
                  after.registry[n] == c.(timeout := timeout) && after.files == s.db.files && t.log == s.log
                else if will.None? then
                  && after.registry[n] == c.(timeout := timeout, status := LOST) && after.files == s.db.files
                  && t.log == s.log
                else
                  && after.registry[n] == NO_CLIENT && n !in after.files
                  && t.log == s.log + [WillPublished(n, will.value)])
  {
    hide Inv, Sound, EntryOk, SetTimeout, SetStatus, Expire, Tolerance;
    OwnRow(s, n);
    LiveRow(s, n);
    if row.status in {ACTIVE, ASLEEP, AWAKE} {
      ToleranceIs(row.duration, (row.timeout + elapsed) % 0x1_0000_0000);
      var timed, lost := TimeoutStates(s, row, elapsed);
      ExpireAt(s.(db := lost), n, row.id);
    }
  }

  /** What becomes of a lost client's row and files. */
  lemma ExpireAt(s: Sys, n: nat, id: ClientId)
    requires Sound(s.db) && Ready(s.db) && id != ""
    requires n == s.db.entry.fileNumber && s.db.entry.id == id
    ensures var after := Expire(s, id).db;
            if FilesAt(s.db.files, n).will.None? then after == Apply(s.db) && Expire(s, id).log == s.log
            else
              && Expire(s, id).log == s.log + [WillPublished(n, FilesAt(s.db.files, n).will.value)]
              && n < |s.db.registry| && after.registry == s.db.registry[n := NO_CLIENT]
              && n !in after.files
              && (forall m: nat | m != n :: FilesAt(after.files, m) == FilesAt(s.db.files, m))
              && (forall m: nat | m != n :: m in after.files <==> m in s.db.files)
  {
    hide Sound, DropClient, RowsOk, TablesOk;
    SoundEntry(s.db);
    if FilesAt(s.db.files, n).will.Some? {
      var willed := s.(log := s.log + [WillPublished(n, Mine(s.db).will.value)]);
      DropClientKeeps(willed, id);
      RowDeletedAt(s.db, n);
    }
  }

  lemma TimeoutWritten(d: Db, timeout: nat)
    requires Sound(d) && Ready(d)
    ensures var c := d.entry.(timeout := timeout);
            SetTimeout(d, timeout) == d.(entry := c, registry := d.registry[c.fileNumber := c])
    ensures d.entry.fileNumber < |d.registry| && d.registry[d.entry.fileNumber] == d.entry
  {
  }

  lemma StatusWritten(d: Db, status: Status)
    requires Sound(d) && Ready(d)
    ensures var c := d.entry.(status := status);
            SetStatus(d, status) == d.(entry := c, registry := d.registry[c.fileNumber := c])
    ensures d.entry.fileNumber < |d.registry| && d.registry[d.entry.fileNumber] == d.entry
  {
  }

  /** Deleting the transaction's own row. */
  lemma RowDeletedAt(d: Db, n: nat)
    requires Sound(d) && Ready(d) && d.entry.fileNumber == n
    ensures RowDeleted(d.registry, d.entry.id) == d.registry[n := NO_CLIENT]
  {
    forall j | 0 <= j < n ensures !ById(d.entry.id)(d.registry[j]) {
      assert d.registry[j].id == "" || d.registry[j].id != d.registry[n].id;
    }
    FirstIs(d.registry, ById(d.entry.id), n);
  }

  /** A visit neither adds nor removes rows. */
  lemma SizeKept(s: Sys, n: nat, heartbeat: Option<nat>, garbage: bool)
    requires Inv(s)
    ensures |Visit(s, n, heartbeat, garbage).db.registry| == |s.db.registry|
  {
    hide Inv, Sound, AtEntry, HandlePublishes, AnswerPing, HandleTimeout, RowsOk;
    var row := NthClient(s.db, n);
    RowsInOrder(s);
    if n < |s.db.registry| && row.status != EMPTY {
      RowInUse(s.db.registry, n);
    }
    HandlePublishesKeeps(s, row.status, row.address, garbage);
    HandlePublishesSize(s, row.status, row.address, garbage);
    var t := HandlePublishes(s, row.status, row.address, garbage);
    AnswerPingKeeps(t, row.status, row.address);
    AnswerPingSize(t, row.status, row.address);
    if heartbeat.Some? {
      HandleTimeoutSize(AnswerPing(t, row.status, row.address), row, heartbeat.value);
    }
  }

  lemma AtEntrySize(d: Db, e: Db)
    requires AtEntry(d, e)
    ensures |Apply(e).registry| == |d.registry|
  {
  }

  lemma HandlePublishesSize(s: Sys, status: Status, address: nat, garbage: bool)
    requires Inv(s) && (status in {AWAKE, ACTIVE} ==> address != 0)
    ensures |HandlePublishes(s, status, address, garbage).db.registry| == |s.db.registry|
  {
    hide Inv, Sound, AtEntry, SendNext, HasPublishes;
    if status in {AWAKE, ACTIVE} {
      Opened(s, address);
      var e := HandlePublishesAtEntry(s, status, address, garbage);
      AtEntrySize(StartByAddress(s.db, address), e);
    }
  }

  lemma AnswerPingSize(s: Sys, status: Status, address: nat)
    requires Inv(s) && (status == AWAKE ==> address != 0)
    ensures |AnswerPing(s, status, address).db.registry| == |s.db.registry|
  {
    hide Inv, Sound, AtEntry, SetStatus, HasPublishes;
    if status == AWAKE {
      Opened(s, address);
      var d := StartByAddress(s.db, address);
      SoundEntry(d);
      StatusAtEntry(d, ASLEEP);
      AtEntrySize(d, SetStatus(d, ASLEEP));
    }
  }

  lemma HandleTimeoutSize(s: Sys, row: Client, elapsed: nat)
    requires Inv(s) && (row.status in {ACTIVE, ASLEEP, AWAKE} ==> row.address != 0 && row.id != "")
    ensures |HandleTimeout(s, row, elapsed).db.registry| == |s.db.registry|
  {
    hide Inv, Sound, SetTimeout, SetStatus, Expire, Tolerance;
    if row.status in {ACTIVE, ASLEEP, AWAKE} {
      var timed, lost := TimeoutStates(s, row, elapsed);
      ExpireSize(s.(db := lost), row.id);
    }
  }

  lemma ExpireSize(s: Sys, id: ClientId)
    requires Sound(s.db) && id != ""
    ensures |Expire(s, id).db.registry| == |s.db.registry|
  {
    hide Sound, DropClient;
    if Ready(s.db) && Mine(s.db).will.Some? {
      DropClientKeeps(s.(log := s.log + [WillPublished(s.db.entry.fileNumber, Mine(s.db).will.value)]), id);
    }
  }

  lemma NotReadyUntouched(d: Db, timeout: nat)
    ensures !Ready(d) ==> SetTimeout(d, timeout) == d && SetStatus(d, LOST) == d
  {
  }
}
