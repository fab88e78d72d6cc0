/** The invariant of the store, and what the counts of MQTT.SUB and the broker have to do with it. */
module Soundness {
  import opened Bytes
  import opened Scan
  import opened Store
  import opened Gateway

  /** Rows are either deleted, or carry their own position, an address, a status and an id of their own. */
  ghost predicate RowsOk(rows: seq<Client>) {
    && (forall i | 0 <= i < |rows| ::
          if rows[i].id == "" then rows[i] == NO_CLIENT
          else rows[i].fileNumber == i && rows[i].address != 0 && rows[i].status != EMPTY)
    && (forall i, j | 0 <= i < j < |rows| && rows[i].id != "" :: rows[i].id != rows[j].id)
  }

  /** The open transaction's copy is the row it was read from. */
  ghost predicate EntryOk(d: Db) {
    Ready(d) ==> d.entry.id != "" && d.entry.fileNumber < |d.registry| && d.registry[d.entry.fileNumber] == d.entry
  }

  /** Slot i holds id i + 1, under a name of its own. */
  ghost predicate RegsOk(regs: seq<Registration>) {
    && (forall i | 0 <= i < |regs| :: regs[i].topicId == i + 1 && regs[i].known)
    && (forall i, j | 0 <= i < j < |regs| :: regs[i].name != regs[j].name)
  }

  /** A subscription is to a registered topic. */
  ghost predicate SubOk(regs: seq<Registration>, sub: Subscription) {
    1 <= sub.topicId <= |regs| && sub.name != "" && regs[sub.topicId - 1].name == sub.name
  }

  /** The used slots are the first k, with distinct ids; the others are zeroed. */
  ghost predicate SubsOk(regs: seq<Registration>, subs: seq<Subscription>, k: nat) {
    && k <= |subs|
    && (forall i | 0 <= i < k :: SubOk(regs, subs[i]))
    && (forall i | k <= i < |subs| :: subs[i] == NO_SUBSCRIPTION)
    && (forall i, j | 0 <= i < j < k :: subs[i].topicId != subs[j].topicId)
  }

  ghost predicate FileOk(f: Files) {
    RegsOk(f.regs) && SubsOk(f.regs, f.subs, |f.subs|)
  }

  ghost predicate FilesOk(files: map<nat, Files>) {
    forall n | n in files :: FileOk(files[n])
  }

  /** MQTT.SUB: a row is used under a name of its own, or zeroed. */
  ghost predicate CountsOk(counts: seq<GlobalCount>) {
    && (forall i | 0 <= i < |counts| :: counts[i].count == 0 <==> counts[i].name == "")
    && (forall i, j | 0 <= i < j < |counts| && counts[i].count != 0 :: counts[i].name != counts[j].name)
  }

  ghost predicate HoldsTopic(subs: seq<Subscription>, topic: string) {
    topic != "" && exists i :: 0 <= i < |subs| && subs[i].name == topic
  }

  /** The clients, by file number, whose subscription table holds the topic. */
  ghost function Holders(files: map<nat, Files>, topic: string): set<nat> {
    set n | n in files && HoldsTopic(files[n].subs, topic)
  }

  /** Every topic's count is the number of its holders. */
  ghost predicate Conserved(files: map<nat, Files>, counts: seq<GlobalCount>) {
    forall topic: string :: CountOf(counts, topic) == |Holders(files, topic)|
  }

  /** The broker subscriptions are the topics with a positive count. */
  ghost predicate BrokerOk(broker: set<string>, counts: seq<GlobalCount>) {
    forall topic: string :: topic in broker <==> CountOf(counts, topic) > 0
  }

  /** No topic's count exceeds the number of its holders. */
  ghost predicate AtMost(files: map<nat, Files>, counts: seq<GlobalCount>) {
    forall topic: string :: CountOf(counts, topic) <= |Holders(files, topic)|
  }

  /** The gateway is subscribed at the broker to topics with a positive count only. */
  ghost predicate BrokerCounted(broker: set<string>, counts: seq<GlobalCount>) {
    forall topic: string :: topic in broker ==> CountOf(counts, topic) > 0
  }

  ghost predicate TablesOk(files: map<nat, Files>, counts: seq<GlobalCount>) {
    FilesOk(files) && CountsOk(counts)
  }

  ghost predicate Sound(d: Db) {
    RowsOk(d.registry) && EntryOk(d) && TablesOk(d.files, d.counts)
  }

  ghost predicate Idle(d: Db) { !d.started && !d.error }

  /** The invariant between two core operations. */
  ghost predicate Inv(s: Sys) {
    Sound(s.db) && Idle(s.db)
  }

  /** ... and the counts are right. */
  ghost predicate Balanced(s: Sys) {
    Inv(s) && Conserved(s.db.files, s.db.counts) && BrokerOk(s.broker, s.db.counts)
  }

  /** The subscriptions of all clients are the same. */
  ghost predicate SameSubs(files: map<nat, Files>, after: map<nat, Files>) {
    forall n: nat :: FilesAt(after, n).subs == FilesAt(files, n).subs
  }

  /** Nothing has changed that the counts are about. */
  ghost predicate SameCounting(s: Sys, t: Sys) {
    SameSubs(s.db.files, t.db.files) && t.db.counts == s.db.counts && t.broker == s.broker
  }

  /** What is right about the counts stays right. */
  ghost predicate Tallies(s: Sys, t: Sys) {
    && (AtMost(s.db.files, s.db.counts) ==> AtMost(t.db.files, t.db.counts))
    && (Conserved(s.db.files, s.db.counts) ==> Conserved(t.db.files, t.db.counts))
    && (BrokerOk(s.broker, s.db.counts) ==> BrokerOk(t.broker, t.db.counts))
    && (BrokerCounted(s.broker, s.db.counts) ==> BrokerCounted(t.broker, t.db.counts))
  }

  lemma SameCountingTallies(s: Sys, t: Sys)
    requires SameCounting(s, t)
    ensures Tallies(s, t)
  {
    forall topic: string ensures Holders(t.db.files, topic) == Holders(s.db.files, topic) {
      SameHolders(s.db.files, t.db.files, topic);
    }
  }

  lemma SameHolders(files: map<nat, Files>, after: map<nat, Files>, topic: string)
    requires SameSubs(files, after)
    ensures Holders(after, topic) == Holders(files, topic)
  {
    HoldersAreFiles(files, topic);
    HoldersAreFiles(after, topic);
    assert forall n: nat :: FilesAt(after, n).subs == FilesAt(files, n).subs;
  }

  lemma HoldersAreFiles(files: map<nat, Files>, topic: string)
    ensures forall n: nat :: n in Holders(files, topic) <==> HoldsTopic(FilesAt(files, n).subs, topic)
  {
    assert !HoldsTopic([], topic);
  }

  // MQTT.SUB

  /** One more client for a topic. */
  lemma IncrementCounts(counts: seq<GlobalCount>, name: TopicName, topic: string)
    requires CountsOk(counts) && name != ""
    ensures CountsOk(Incremented(counts, name))
    ensures CountOf(Incremented(counts, name), topic) == CountOf(counts, topic) + if topic == name then 1 else 0
  {
    var i, after := First(counts, CountFor(name)), Incremented(counts, name);
    var k := if i < |counts| then i else Place(counts, NoCount);
    CountIs(after, k);
    SameElsewhere(counts, after, k, topic, name);
  }

  /** The count of a used row's topic is in that row. */
  lemma CountIs(counts: seq<GlobalCount>, i: nat)
    requires CountsOk(counts) && i < |counts| && counts[i].count != 0
    ensures First(counts, CountFor(counts[i].name)) == i && CountOf(counts, counts[i].name) == counts[i].count
  {
    FirstIs(counts, CountFor(counts[i].name), i);
  }

  /** Rewriting one row changes the counts of the topics in that row only. */
  lemma SameElsewhere(before: seq<GlobalCount>, after: seq<GlobalCount>, k: nat, topic: string, name: string)
    requires CountsOk(before) && CountsOk(after) && |before| <= |after| <= |before| + 1 && k < |after|
    requires |after| > |before| ==> k == |before|
    requires forall i | 0 <= i < |before| && i != k :: after[i] == before[i]
    requires k < |before| && before[k].count != 0 ==> before[k].name == name
    requires after[k].count != 0 ==> after[k].name == name
    ensures topic != name ==> CountOf(after, topic) == CountOf(before, topic)
  {
    if topic != name {
      var i := First(before, CountFor(topic));
      if i < |before| {
        FirstIs(after, CountFor(topic), i);
      } else {
        FirstNone(after, CountFor(topic));
      }
    }
  }

  /** One less, unless the count is zero. */
  function Less(count: nat): nat { if count == 0 then 0 else count - 1 }

  /** One client less for a topic that has any. */
  lemma DecrementCounts(counts: seq<GlobalCount>, name: string, topic: string)
    requires CountsOk(counts) && name != ""
    ensures CountsOk(Decremented(counts, name))
    ensures CountOf(Decremented(counts, name), topic) ==
            if topic == name then Less(CountOf(counts, topic)) else CountOf(counts, topic)
  {
    var i, after := First(counts, CountFor(name)), Decremented(counts, name);
    if i < |counts| {
      if after[i].count != 0 {
        CountIs(after, i);
      } else {
        FirstNone(after, CountFor(name));
      }
      SameElsewhere(counts, after, i, topic, name);
    }
  }

  // Client files

  lemma HoldersUpdate(files: map<nat, Files>, n: nat, f: Files, topic: string)
    ensures Holders(files[n := f], topic) ==
            if HoldsTopic(f.subs, topic) then Holders(files, topic) + {n} else Holders(files, topic) - {n}
    ensures n in Holders(files, topic) <==> HoldsTopic(FilesAt(files, n).subs, topic)
  {
    assert !HoldsTopic([], topic);
  }

  /** Rewriting a file without touching its subscriptions keeps the tables in order. */
  lemma SameSubsKeep(files: map<nat, Files>, counts: seq<GlobalCount>, n: nat, f: Files)
    requires TablesOk(files, counts) && FileOk(f) && f.subs == FilesAt(files, n).subs
    ensures TablesOk(files[n := f], counts) && SameSubs(files, files[n := f])
  {
  }

  lemma AppendedSub(regs: seq<Registration>, subs: seq<Subscription>, sub: Subscription)
    requires RegsOk(regs) && SubsOk(regs, subs, |subs|) && SubOk(regs, sub) && !HoldsTopic(subs, sub.name)
    ensures SubsOk(regs, subs + [sub], |subs| + 1)
    ensures forall topic :: HoldsTopic(subs + [sub], topic) <==> HoldsTopic(subs, topic) || topic == sub.name
  {
    var more := subs + [sub];
    forall i | 0 <= i < |subs| ensures subs[i].topicId != sub.topicId {
      assert SubOk(regs, subs[i]) && subs[i].name != sub.name;
    }
    assert more[|subs|] == sub && forall i | 0 <= i < |subs| :: more[i] == subs[i];
  }

  /** is_subscribed finds exactly the held topics. */
  lemma SubscribedIsHeld(d: Db, name: string)
    ensures IsSubscribed(d, name) <==> Ready(d) && HoldsTopic(Mine(d).subs, name)
  {
    var subs := Mine(d).subs;
    if HoldsTopic(subs, name) {
      var i :| 0 <= i < |subs| && subs[i].name == name;
      assert SubscriptionNamed(name)(subs[i]);
    }
  }

  /** No file but the transaction's client's own differs. */
  ghost predicate OnlyMine(d: Db, e: Db) {
    e.files == d.files || e.files == d.files[d.entry.fileNumber := Mine(e)]
  }

  /** Entering a subscription that is already there, or to the empty topic name, changes nothing; otherwise the
      client becomes a holder and the topic's count grows by one. */
  lemma EnterKeeps(d: Db, name: TopicName, id: nat, qos: nat)
    requires Sound(d) && Ready(d) && 1 <= id <= |Mine(d).regs| && Mine(d).regs[id - 1].name == name
    ensures var (after, first) := Enter(d, name, id, qos);
            && Sound(after) && Ready(after) && after == d.(files := after.files, counts := after.counts)
            && Mine(after).regs == Mine(d).regs
            && OnlyMine(d, after)
            && (if name == "" || HoldsTopic(Mine(d).subs, name) then after == d && !first
                else
                  && (forall topic ::
                        CountOf(after.counts, topic) == CountOf(d.counts, topic) + if topic == name then 1 else 0)
                  && (forall topic ::
                        HoldsTopic(Mine(after).subs, topic) <==> HoldsTopic(Mine(d).subs, topic) || topic == name)
                  && Mine(after).subs == Mine(d).subs + [Subscription(id, qos, name)]
                  && (first <==> CountOf(d.counts, name) == 0))
  {
    hide RowsOk, CountsOk, CountOf, HoldsTopic, Incremented;
    SubscribedIsHeld(d, name);
    if name != "" && !HoldsTopic(Mine(d).subs, name) {
      EnterNew(d, name, id, qos);
    } else if name == "" {
      EmptyNotHeld(Mine(d).subs);
    }
  }

  lemma EmptyNotHeld(subs: seq<Subscription>)
    ensures !HoldsTopic(subs, "")
  {
  }

  lemma EnterNew(d: Db, name: TopicName, id: nat, qos: nat)
    requires Sound(d) && Ready(d) && 1 <= id <= |Mine(d).regs| && Mine(d).regs[id - 1].name == name
    requires name != "" && !HoldsTopic(Mine(d).subs, name)
    ensures var added := Store.AddSubscription(d, name, id, qos);
            var f := Mine(d).(subs := Mine(d).subs + [Subscription(id, qos, name)]);
            && added == SetMine(d, f)
            && (forall topic :: HoldsTopic(f.subs, topic) <==> HoldsTopic(Mine(d).subs, topic) || topic == name)
            && TablesOk(added.files, Incremented(d.counts, name))
            && (forall topic ::
                  CountOf(Incremented(d.counts, name), topic) ==
                  CountOf(d.counts, topic) + if topic == name then 1 else 0)
  {
    var f := Mine(d);
    var sub := Subscription(id, qos, name);
    MineOk(d);
    NewSubPlaced(f.regs, f.subs, sub);
    AppendedSub(f.regs, f.subs, sub);
    IncrementCounts(d.counts, name, name);
    forall topic: string ensures
      CountOf(Incremented(d.counts, name), topic) == CountOf(d.counts, topic) + if topic == name then 1 else 0
    {
      IncrementCounts(d.counts, name, topic);
    }
  }

  lemma MineOk(d: Db)
    requires FilesOk(d.files)
    ensures FileOk(Mine(d))
  {
  }

  /** A table without holes takes a new subscription at its end. */
  lemma NewSubPlaced(regs: seq<Registration>, subs: seq<Subscription>, sub: Subscription)
    requires SubsOk(regs, subs, |subs|) && sub.name != "" && !HoldsTopic(subs, sub.name)
    ensures First(subs, SameSubscription(sub.topicId, sub.name)) == |subs|
    ensures Write(subs, Place(subs, NoSubscription), sub, NO_SUBSCRIPTION) == subs + [sub]
  {
    NoHoleMeansAppend(subs, NoSubscription);
    FirstNone(subs, SameSubscription(sub.topicId, sub.name));
  }

  // Removing a client's subscriptions

  /** In the middle of a removal: the first k slots of the client are still in use, everything else is in order. */
  ghost predicate Removing(s: Sys, k: nat) {
    && Ready(s.db) && RowsOk(s.db.registry) && EntryOk(s.db) && CountsOk(s.db.counts)
    && RegsOk(Mine(s.db).regs) && SubsOk(Mine(s.db).regs, Mine(s.db).subs, k)
    && forall n | n in s.db.files && n != s.db.entry.fileNumber :: FileOk(s.db.files[n])
  }

  /** The slot read by index is the first one with its topic id, and its registered name is the subscribed one. */
  lemma LastSlotFound(d: Db, k: nat)
    requires Ready(d) && k > 0 && RegsOk(Mine(d).regs) && SubsOk(Mine(d).regs, Mine(d).subs, k)
    ensures var sub := Mine(d).subs[k - 1];
            && NthSubscribedTopicId(d, k - 1) == sub.topicId && sub.topicId != 0 && sub.name != ""
            && First(Mine(d).subs, SubscriptionWithId(sub.topicId)) == k - 1
            && GetTopicName(d, sub.topicId) == Some(sub.name)
  {
    var regs, subs := Mine(d).regs, Mine(d).subs;
    var sub := subs[k - 1];
    assert SubOk(regs, sub);
    FirstIs(subs, SubscriptionWithId(sub.topicId), k - 1);
    FirstIs(regs, RegistrationWithId(sub.topicId), sub.topicId - 1);
  }

  /** Zeroing the last used slot drops its topic and no other. */
  lemma LastSlotZeroed(regs: seq<Registration>, subs: seq<Subscription>, k: nat)
    requires k > 0 && RegsOk(regs) && SubsOk(regs, subs, k)
    ensures SubsOk(regs, subs[k - 1 := NO_SUBSCRIPTION], k - 1)
    ensures HoldsTopic(subs, subs[k - 1].name)
    ensures forall topic ::
      HoldsTopic(subs[k - 1 := NO_SUBSCRIPTION], topic) <==> HoldsTopic(subs, topic) && topic != subs[k - 1].name
  {
    var name, less := subs[k - 1].name, subs[k - 1 := NO_SUBSCRIPTION];
    assert SubOk(regs, subs[k - 1]);
    forall i | 0 <= i < k - 1 ensures subs[i].name != name {
      assert SubOk(regs, subs[i]);
    }
    forall topic | HoldsTopic(subs, topic) && topic != name ensures HoldsTopic(less, topic) {
      var i :| 0 <= i < |subs| && subs[i].name == topic;
      assert less[i] == subs[i];
    }
  }

  /** One turn of the removal loop: the client no longer holds the last topic, whose count is one less, and at zero the
      gateway's subscription goes. */
  lemma RemoveOneKeeps(s: Sys, k: nat)
    requires Removing(s, k) && k > 0
    ensures var sub := Mine(s.db).subs[k - 1];
            var id := NthSubscribedTopicId(s.db, k - 1);
            var after := RemoveOne(s, id, GetTopicName(s.db, id));
            && Removing(after, k - 1) && SameButTopics(s, after)
            && Mine(after.db) == Mine(s.db).(subs := Mine(s.db).subs[k - 1 := NO_SUBSCRIPTION])
            && after.db.counts == Decremented(s.db.counts, sub.name)
            && after.broker == if CountOf(after.db.counts, sub.name) == 0 then s.broker - {sub.name} else s.broker
  {
    hide CountsOk, CountOf, HoldsTopic, Decremented, RowsOk, EntryOk, SubsOk, SubOk;
    var f := Mine(s.db);
    LastSlotFound(s.db, k);
    LastSlotZeroed(f.regs, f.subs, k);
    var sub := f.subs[k - 1];
    var g := f.(subs := f.subs[k - 1 := NO_SUBSCRIPTION]);
    DecrementCounts(s.db.counts, sub.name, sub.name);
    EntryKept(s.db, SetMine(s.db, g).(counts := Decremented(s.db.counts, sub.name)));
  }

  /** Two states that differ in one client's subscriptions, the counts and the broker subscriptions at most. */
  ghost predicate SameButTopics(s: Sys, t: Sys) {
    && t == s.(db := s.db.(files := t.db.files, counts := t.db.counts), broker := t.broker)
    && OnlyMine(s.db, t.db)
    && Mine(t.db).regs == Mine(s.db).regs && Mine(t.db).will == Mine(s.db).will && Mine(t.db).queue == Mine(s.db).queue
  }

  lemma EntryKept(d: Db, e: Db)
    requires EntryOk(d) && e == d.(files := e.files, counts := e.counts)
    ensures EntryOk(e)
  {
  }

  /** What a removal does to one topic. */
  ghost predicate Released(s: Sys, t: Sys, topic: string, held: bool) {
    && CountOf(t.db.counts, topic) == (if held then Less(CountOf(s.db.counts, topic)) else CountOf(s.db.counts, topic))
    && (topic in t.broker <==> topic in s.broker && !(held && CountOf(t.db.counts, topic) == 0))
  }

  /** remove_client_subscriptions: all slots are zeroed, every topic the client held has a count of one less, and the
      gateway is no longer subscribed to those of them whose count is then zero. */
  lemma {:induction false} RemoveFromKeeps(s: Sys, k: nat)
    requires Removing(s, k)
    ensures var after := RemoveFrom(s, k);
            && Removing(after, 0) && SameButTopics(s, after)
    ensures forall topic :: Released(s, RemoveFrom(s, k), topic, HoldsTopic(Mine(s.db).subs, topic))
    decreases k
  {
    hide Removing, RemoveOne, CountOf, HoldsTopic;
    if k == 0 {
      NothingHeld(s);
    } else {
      RemovingSubs(s, k);
      RemoveOneKeeps(s, k);
      var id := NthSubscribedTopicId(s.db, k - 1);
      var next := RemoveOne(s, id, GetTopicName(s.db, id));
      RemoveFromKeeps(next, k - 1);
      LastSlotZeroed(Mine(s.db).regs, Mine(s.db).subs, k);
      var name := Mine(s.db).subs[k - 1].name;
      forall topic: string
        ensures Released(s, RemoveFrom(s, k), topic, HoldsTopic(Mine(s.db).subs, topic))
      {
        DecrementCounts(s.db.counts, name, topic);
        assert Released(next, RemoveFrom(next, k - 1), topic, HoldsTopic(Mine(next.db).subs, topic));
      }
    }
  }

  lemma RemovingSubs(s: Sys, k: nat)
    requires Removing(s, k)
    ensures RegsOk(Mine(s.db).regs) && SubsOk(Mine(s.db).regs, Mine(s.db).subs, k) && k <= |Mine(s.db).subs|
    ensures CountsOk(s.db.counts) && forall i | 0 <= i < k :: Mine(s.db).subs[i].name != ""
  {
    assert forall i | 0 <= i < k :: SubOk(Mine(s.db).regs, Mine(s.db).subs[i]);
  }

  lemma NothingHeld(s: Sys)
    requires Removing(s, 0)
    ensures forall topic :: !HoldsTopic(Mine(s.db).subs, topic)
  {
  }
}
