/** UNSUBSCRIBE: delete_subscription acts only for clients that do not hold the topic. What it then does, when tables,
    counts and broker survive it, and when the client can still be removed afterwards. */
module Unsubscribing {
  import opened Bytes
  import opened Scan
  import opened Store
  import opened Gateway
  import opened Soundness
  import opened Operations
  import opened Removal

  ghost predicate HoldsNamed(d: Db, name: Option<TopicName>) {
    name.Some? && Ready(d) && HoldsTopic(Mine(d).subs, name.value)
  }

  /** The client is subscribed to some topic under this id. */
  ghost predicate HoldsId(d: Db, id: nat) {
    Ready(d) && exists i :: 0 <= i < |Mine(d).subs| && Mine(d).subs[i].topicId == id
  }

  /** Some client holds the topic. */
  ghost predicate Counted(d: Db, name: Option<TopicName>) { name.Some? && CountOf(d.counts, name.value) > 0 }

  // What it does

  /** The holder of a topic cannot unsubscribe from it. */
  lemma HolderStays(s: Sys, d: Db, name: Option<TopicName>, id: nat)
    requires SameTables(s.db, d) && HoldsNamed(d, name)
    ensures var after := DeleteTopic(s, d, name, id);
            after == s.(db := after.db) && SameTables(s.db, after.db) && Idle(after.db)
  {
    SubscribedIsHeld(d, name.value);
  }

  /** Under an id the client has no subscription for, the tables stay as they are, and the gateway unsubscribes from
      the topic at the broker whoever else holds it. */
  lemma OnlyBrokerChanges(s: Sys, d: Db, name: Option<TopicName>, id: nat)
    requires SameTables(s.db, d) && Open(d) && !HoldsNamed(d, name) && id != 0 && !HoldsId(d, id)
    ensures var after := DeleteTopic(s, d, name, id);
            && SameTables(s.db, after.db) && Idle(after.db)
            && after == s.(db := after.db, broker := if name.Some? then s.broker - {name.value} else s.broker)
  {
    if name.Some? {
      SubscribedIsHeld(d, name.value);
    }
    FirstNone(Mine(d).subs, SubscriptionWithId(id));
  }

  /** By name, any client, known or not, takes one from the count of a topic it does not hold. */
  lemma OnlyCountChanges(s: Sys, d: Db, name: TopicName)
    requires SameTables(s.db, d) && Open(d) && !HoldsNamed(d, Some(name)) && name != ""
    ensures var after := DeleteTopic(s, d, Some(name), 0);
            var counts := Decremented(s.db.counts, name);
            && SameTables(s.db.(counts := counts), after.db) && Idle(after.db)
            && after == s.(db := after.db,
                           broker := if CountOf(counts, name) == 0 then s.broker - {name} else s.broker)
  {
    hide Decremented, CountOf;
    SubscribedIsHeld(d, name);
  }

  /** A subscription to another topic under the same id is taken away, and that topic's count is not. */
  lemma AnotherIsTaken(s: Sys, d: Db, name: Option<TopicName>, id: nat)
    requires SameTables(s.db, d) && Sound(d) && !HoldsNamed(d, name) && HoldsId(d, id)
    ensures var subs := Mine(d).subs;
            var i := First(subs, SubscriptionWithId(id));
            var after := DeleteTopic(s, d, name, id);
            && i < |subs| && subs[i].topicId == id && name != Some(subs[i].name)
            && Idle(after.db) && after.db.registry == s.db.registry && after.log == s.log
            && after.db.files == s.db.files[d.entry.fileNumber := Mine(d).(subs := subs[i := NO_SUBSCRIPTION])]
            && after.db.counts == (if name.Some? && name.value != "" then Decremented(s.db.counts, name.value)
                                   else s.db.counts)
  {
    hide Decremented, CountOf, RowsOk, CountsOk;
    var subs := Mine(d).subs;
    var i := First(subs, SubscriptionWithId(id));
    HeldIdFound(d, id);
    if name.Some? {
      SubscribedIsHeld(d, name.value);
    }
  }

  lemma HeldIdFound(d: Db, id: nat)
    requires FilesOk(d.files) && HoldsId(d, id)
    ensures var subs := Mine(d).subs;
            var i := First(subs, SubscriptionWithId(id));
            i < |subs| && subs[i].topicId == id && id != 0 && HoldsTopic(subs, subs[i].name)
  {
    var f := Mine(d);
    MineOk(d);
    var j :| 0 <= j < |f.subs| && f.subs[j].topicId == id;
    assert SubscriptionWithId(id)(f.subs[j]);
    assert SubOk(f.regs, f.subs[First(f.subs, SubscriptionWithId(id))]);
  }

  /** In every case rows, registrations and log are untouched, and so are all files but the client's subscriptions. */
  lemma DeleteTouches(s: Sys, d: Db, name: Option<TopicName>, id: nat)
    requires SameTables(s.db, d)
    ensures var after := DeleteTopic(s, d, name, id);
            && after.db.registry == s.db.registry && after.log == s.log && Idle(after.db)
            && (after.db.files == s.db.files ||
                (Ready(d) && exists subs :: after.db.files == s.db.files[d.entry.fileNumber := Mine(d).(subs := subs)]))
  {
    hide Decremented, CountOf, First;
    var subs := Mine(d).subs;
    var i := First(subs, SubscriptionWithId(id));
    if Open(d) && id != 0 && i < |subs| {
      assert Store.DeleteSubscription(d, id).files ==
             d.files[d.entry.fileNumber := Mine(d).(subs := subs[i := NO_SUBSCRIPTION])];
    }
  }

  // When the tables survive

  predicate Unsubscribes(step: Step) { step.UnsubscribeStep? || step.UnsubscribeNameStep? }

  /** What the step asks to be unsubscribed: a topic name, if there is one, and a topic id. */
  function AskedName(s: Sys, step: Step): Option<TopicName>
    requires Unsubscribes(step)
  {
    if step.UnsubscribeStep? then NamedTopic(StartByAddress(s.db, step.address), step.topicId, step.shortTopic)
    else Some(step.name)
  }

  function AskedId(step: Step): nat
    requires Unsubscribes(step)
  {
    if step.UnsubscribeStep? then step.topicId else 0
  }

  lemma UnsubscribeIs(s: Sys, step: Step)
    requires Unsubscribes(step)
    ensures Do(s, step) == DeleteTopic(s, StartByAddress(s.db, step.address), AskedName(s, step), AskedId(step))
  {
    hide DeleteTopic;
  }

  /** Every UNSUBSCRIBE leaves rows and log alone, and of the files all but its client's subscriptions. */
  lemma UnsubscribeTouches(s: Sys, step: Step)
    requires Inv(s) && Legal(step) && Unsubscribes(step)
    ensures var d, t := StartByAddress(s.db, step.address), Do(s, step);
            && t.db.registry == s.db.registry && t.log == s.log && SameTables(s.db, d)
            && (t.db.files == s.db.files ||
                (Ready(d) && t.db.files == s.db.files[d.entry.fileNumber :=
                                             Mine(d).(subs := FilesAt(t.db.files, d.entry.fileNumber).subs)]))
  {
    hide Sound, DeleteTopic, StartByAddress;
    Opened(s, step.address);
    UnsubscribeIs(s, step);
    DeleteTouches(s, StartByAddress(s.db, step.address), AskedName(s, step), AskedId(step));
  }

  /** The one operation that leaves a hole: an UNSUBSCRIBE from a client that does not hold the topic but holds another
      under the same id. */
  ghost predicate MakesHole(s: Sys, step: Step) {
    Unsubscribes(step) && TakesAnother(StartByAddress(s.db, step.address), AskedName(s, step), AskedId(step))
  }

  ghost predicate TakesAnother(d: Db, name: Option<TopicName>, id: nat) {
    !HoldsNamed(d, name) && HoldsId(d, id)
  }

  /** The tables stay in order unless another subscription is taken away. */
  lemma DeleteKeepsIff(s: Sys, address: nat, name: Option<TopicName>, id: nat)
    requires Inv(s) && address != 0
    ensures var d := StartByAddress(s.db, address); Inv(DeleteTopic(s, d, name, id)) <==> !TakesAnother(d, name, id)
  {
    hide Inv, DeleteTopic, HoldsNamed, HoldsId, StartByAddress, Decremented;
    var d := StartByAddress(s.db, address);
    Opened(s, address);
    if HoldsNamed(d, name) {
      HolderStays(s, d, name, id);
      SameTablesKeep(s, DeleteTopic(s, d, name, id));
    } else if HoldsId(d, id) {
      HoleBreaks(s, d, name, id);
    } else if id != 0 {
      OnlyBrokerChanges(s, d, name, id);
      SameTablesKeep(s, DeleteTopic(s, d, name, id));
    } else if name.None? || name.value == "" {
      InvCounts(s);
      NothingNamed(s, d, name);
      SameTablesKeep(s, DeleteTopic(s, d, name, 0));
    } else {
      OnlyCountChanges(s, d, name.value);
      FewerKeep(s, name.value, DeleteTopic(s, d, name, 0));
    }
  }

  lemma InvCounts(s: Sys)
    requires Inv(s)
    ensures CountsOk(s.db.counts)
  {
  }

  lemma SameTablesKeep(s: Sys, t: Sys)
    requires Inv(s) && Idle(t.db) && SameTables(s.db, t.db)
    ensures Inv(t)
  {
  }

  lemma FewerKeep(s: Sys, topic: string, t: Sys)
    requires Inv(s) && Idle(t.db) && topic != ""
    requires SameTables(s.db.(counts := Decremented(s.db.counts, topic)), t.db)
    ensures Inv(t)
  {
    hide RowsOk, FilesOk;
    DecrementCounts(s.db.counts, topic, topic);
  }

  lemma HoleBreaks(s: Sys, d: Db, name: Option<TopicName>, id: nat)
    requires SameTables(s.db, d) && Sound(d) && TakesAnother(d, name, id)
    ensures !Inv(DeleteTopic(s, d, name, id))
  {
    hide DeleteTopic, HoldsNamed, HoldsId, RowsOk, CountsOk;
    AnotherIsTaken(s, d, name, id);
    var i, n, after := First(Mine(d).subs, SubscriptionWithId(id)), d.entry.fileNumber, DeleteTopic(s, d, name, id);
    assert !SubOk(after.db.files[n].regs, after.db.files[n].subs[i]);
    assert !FileOk(after.db.files[n]);
  }

  lemma NothingNamed(s: Sys, d: Db, name: Option<TopicName>)
    requires SameTables(s.db, d) && Open(d) && (name.None? || name.value == "") && CountsOk(s.db.counts)
    ensures var after := DeleteTopic(s, d, name, 0);
            && SameTables(s.db, after.db) && Idle(after.db)
            && after == s.(db := after.db, broker := if name.Some? then s.broker - {""} else s.broker)
            && !Counted(s.db, name)
  {
    FirstNone(s.db.counts, CountFor(""));
  }

  // When the counts survive

  /** The UNSUBSCRIBE is about a topic that others hold and its client does not. */
  ghost predicate OthersTopic(s: Sys, step: Step) {
    && Unsubscribes(step)
    && !HoldsNamed(StartByAddress(s.db, step.address), AskedName(s, step)) && Counted(s.db, AskedName(s, step))
  }

  /** Under the id 0, which is that of every UNSUBSCRIBE by name, that topic loses one from its count. */
  ghost predicate Uncounts(s: Sys, step: Step) { OthersTopic(s, step) && AskedId(step) == 0 }

  /** Under any other id the gateway is no longer subscribed to it at the broker. */
  ghost predicate Deafens(s: Sys, step: Step) { OthersTopic(s, step) && AskedId(step) != 0 }

  /** Without a hole: counts never come to exceed holders and the broker never to have topics without a count; right
      counts stay right unless one is taken away, and the broker in step unless it is told to stop. */
  lemma DeleteTallies(s: Sys, address: nat, name: Option<TopicName>, id: nat)
    requires Inv(s) && address != 0 && !TakesAnother(StartByAddress(s.db, address), name, id)
    ensures var d := StartByAddress(s.db, address);
            var t := DeleteTopic(s, d, name, id);
            && (AtMost(s.db.files, s.db.counts) ==> AtMost(t.db.files, t.db.counts))
            && (BrokerCounted(s.broker, s.db.counts) ==> BrokerCounted(t.broker, t.db.counts))
            && (Conserved(s.db.files, s.db.counts) ==>
                  (Conserved(t.db.files, t.db.counts) <==> HoldsNamed(d, name) || id != 0 || !Counted(s.db, name)))
            && (BrokerOk(s.broker, s.db.counts) ==>
                  (BrokerOk(t.broker, t.db.counts) <==> HoldsNamed(d, name) || id == 0 || !Counted(s.db, name)))
  {
    hide Sound, DeleteTopic, HoldsNamed, HoldsId, CountOf, StartByAddress, AtMost, BrokerCounted, Conserved, BrokerOk;
    var d := StartByAddress(s.db, address);
    var t := DeleteTopic(s, d, name, id);
    Opened(s, address);
    InvCounts(s);
    if HoldsNamed(d, name) {
      HolderStays(s, d, name, id);
    } else if id != 0 {
      OnlyBrokerChanges(s, d, name, id);
      BrokerLoses(s, name, t);
    } else if name.None? || name.value == "" {
      NothingNamed(s, d, name);
      BrokerLoses(s, name, t);
    } else {
      OnlyCountChanges(s, d, name.value);
      CountLost(s, name.value, t);
    }
  }

  lemma BrokerLoses(s: Sys, name: Option<TopicName>, t: Sys)
    requires t.db.files == s.db.files && t.db.counts == s.db.counts
    requires t.broker == if name.Some? then s.broker - {name.value} else s.broker
    ensures BrokerCounted(s.broker, s.db.counts) ==> BrokerCounted(t.broker, t.db.counts)
    ensures BrokerOk(s.broker, s.db.counts) ==> (BrokerOk(t.broker, t.db.counts) <==> !Counted(s.db, name))
  {
    hide CountOf;
    if Counted(s.db, name) {
      assert name.value !in t.broker && CountOf(t.db.counts, name.value) > 0;
    }
  }

  lemma CountLost(s: Sys, topic: string, t: Sys)
    requires CountsOk(s.db.counts) && topic != ""
    requires t.db.files == s.db.files && t.db.counts == Decremented(s.db.counts, topic)
    requires t.broker == if CountOf(t.db.counts, topic) == 0 then s.broker - {topic} else s.broker
    ensures AtMost(s.db.files, s.db.counts) ==> AtMost(t.db.files, t.db.counts)
    ensures BrokerCounted(s.broker, s.db.counts) ==> BrokerCounted(t.broker, t.db.counts)
    ensures BrokerOk(s.broker, s.db.counts) ==> BrokerOk(t.broker, t.db.counts)
    ensures Conserved(s.db.files, s.db.counts) ==>
              (Conserved(t.db.files, t.db.counts) <==> CountOf(s.db.counts, topic) == 0)
  {
    hide CountOf, Decremented, Holders, CountsOk;
    forall other: string
      ensures CountOf(t.db.counts, other) ==
              if other == topic then Less(CountOf(s.db.counts, other)) else CountOf(s.db.counts, other)
    {
      DecrementCounts(s.db.counts, topic, other);
    }
    if Conserved(s.db.files, s.db.counts) && CountOf(s.db.counts, topic) > 0 {
      assert CountOf(t.db.counts, topic) != |Holders(t.db.files, topic)|;
    }
  }

  /** UNSUBSCRIBE keeps everything, tables, counts and broker, exactly if nothing happens: the client holds the topic,
      or no client does and the id is not that of a subscription to another one. By the id of a registered topic, by
      that of a predefined one, and by name. */
  lemma UnsubscribeKeepsIff(s: Sys, address: nat, topicId: nat, name: TopicName)
    requires Balanced(s) && address != 0
    ensures var d := StartByAddress(s.db, address);
            && (Balanced(Unsubscribe(s, address, topicId, true)) <==>
                HoldsNamed(d, GetTopicName(d, topicId)) || !Counted(s.db, GetTopicName(d, topicId)))
            && (Balanced(Unsubscribe(s, address, topicId, false)) <==>
                || HoldsNamed(d, PredefinedName(d, topicId))
                || (!HoldsId(d, topicId) && !Counted(s.db, PredefinedName(d, topicId))))
            && (Balanced(UnsubscribeByName(s, address, name)) <==>
                HoldsNamed(d, Some(name)) || !Counted(s.db, Some(name)))
  {
    hide Inv, Balanced, DeleteTopic, HoldsNamed, Counted, GetTopicName, PredefinedName;
    var d := StartByAddress(s.db, address);
    BalancedInv(s);
    Opened(s, address);
    BalancedIff(s, address, GetTopicName(d, topicId), topicId);
    BalancedIff(s, address, PredefinedName(d, topicId), topicId);
    BalancedIff(s, address, Some(name), 0);
    OwnIdIsHeld(d, topicId);
    if HoldsId(d, 0) {
      HeldIdFound(d, 0);
    }
  }

  lemma BalancedInv(s: Sys)
    requires Balanced(s)
    ensures Inv(s)
  {
  }

  lemma BalancedIff(s: Sys, address: nat, name: Option<TopicName>, id: nat)
    requires Balanced(s) && address != 0
    ensures var d := StartByAddress(s.db, address);
            Balanced(DeleteTopic(s, d, name, id)) <==>
            HoldsNamed(d, name) || (!HoldsId(d, id) && !Counted(s.db, name))
  {
    hide Inv, DeleteTopic, HoldsNamed, HoldsId, Counted, StartByAddress, AtMost, BrokerCounted, Conserved, BrokerOk;
    DeleteKeepsIff(s, address, name, id);
    if !TakesAnother(StartByAddress(s.db, address), name, id) {
      DeleteTallies(s, address, name, id);
    }
  }

  /** A registered id under which the client is subscribed names a topic it holds. */
  lemma OwnIdIsHeld(d: Db, id: nat)
    requires Sound(d)
    ensures HoldsId(d, id) ==> HoldsNamed(d, GetTopicName(d, id))
  {
    hide RowsOk, CountsOk;
    if HoldsId(d, id) {
      var f := Mine(d);
      HeldIdFound(d, id);
      TopicNameFound(d, id);
      assert SubOk(f.regs, f.subs[First(f.subs, SubscriptionWithId(id))]);
    }
  }

  /** So only a predefined id can make a hole. */
  lemma OnlyPredefinedMakeHoles(s: Sys, step: Step)
    requires Inv(s) && Legal(step) && MakesHole(s, step)
    ensures step.UnsubscribeStep? && !step.shortTopic
  {
    hide HoldsNamed, HoldsId, StartByAddress, GetTopicName, PredefinedName, Sound;
    var d := StartByAddress(s.db, step.address);
    Opened(s, step.address);
    if step.UnsubscribeNameStep? {
      ZeroIsNotHeld(d);
    } else {
      OwnIdIsHeld(d, step.topicId);
    }
  }

  lemma ZeroIsNotHeld(d: Db)
    requires Sound(d)
    ensures !HoldsId(d, 0)
  {
    hide RowsOk, CountsOk;
    if HoldsId(d, 0) {
      HeldIdFound(d, 0);
    }
  }

  // What becomes of the removal

  /** When a clean CONNECT removes the client after a subscription to another topic was taken away, the removal loop
      ends exactly if that subscription was the client's last. */
  lemma RemovalEndsIffLast(s: Sys, address: nat, name: Option<TopicName>, id: nat)
    requires var d := StartByAddress(s.db, address);
             Inv(s) && address != 0 && !HoldsNamed(d, name) && HoldsId(d, id)
    ensures var d := StartByAddress(s.db, address);
            var after := DeleteTopic(s, d, name, id);
            var open := after.(db := StartById(after.db, d.entry.id));
            && Ready(open.db) && open.db.entry == d.entry
            && ((exists n :: SubscriptionCount(Turns(open, n).db) == 0) <==>
                First(Mine(d).subs, SubscriptionWithId(id)) == |Mine(d).subs| - 1)
  {
    hide Inv, DeleteTopic, HoldsNamed, HoldsId, Turns, SubscriptionCount, StartById, StartByAddress, CountsOk;
    var d := StartByAddress(s.db, address);
    Opened(s, address);
    AnotherIsTaken(s, d, name, id);
    var after := DeleteTopic(s, d, name, id);
    FoundById(s, d, after.db);
    var subs, i := Mine(d).subs, First(Mine(d).subs, SubscriptionWithId(id));
    HoledTable(Mine(d).regs, subs, i);
    EndsExactlyWhenOrdered(after.(db := StartById(after.db, d.entry.id)));
  }

  lemma FoundById(s: Sys, d: Db, after: Db)
    requires SameTables(s.db, d) && Sound(d) && Ready(d) && Idle(after) && after.registry == s.db.registry
    ensures Ready(StartById(after, d.entry.id)) && StartById(after, d.entry.id).entry == d.entry
    ensures StartById(after, d.entry.id).files == after.files
    ensures FileOk(Mine(d))
  {
    hide CountsOk, FileOk;
    MineOk(d);
    FirstIs(d.registry, ById(d.entry.id), d.entry.fileNumber);
  }

  /** A table in order with one slot zeroed is in order exactly if it was the last. */
  lemma HoledTable(regs: seq<Registration>, subs: seq<Subscription>, i: nat)
    requires SubsOk(regs, subs, |subs|) && i < |subs|
    ensures DistinctIds(subs[i := NO_SUBSCRIPTION])
    ensures Prefix(subs[i := NO_SUBSCRIPTION]) <==> i == |subs| - 1
  {
    var holed := subs[i := NO_SUBSCRIPTION];
    forall j | 0 <= j < |subs| && j != i ensures IsSubscription(holed[j]) {
      assert SubOk(regs, subs[j]);
    }
    if i < |subs| - 1 {
      assert IsSubscription(holed[|subs| - 1]) && !IsSubscription(holed[i]);
    }
  }
}
