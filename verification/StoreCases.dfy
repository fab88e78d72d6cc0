/** The cases of the store's operations that no run in good order meets, and what its queries answer, in terms of the
    records themselves. */
module StoreCases {
  import opened Bytes
  import opened Scan
  import opened Store
  import opened Gateway

  ghost predicate IsFirst(rows: seq<Client>, address: nat, i: nat) {
    i < |rows| && rows[i].address == address && forall j | 0 <= j < i :: rows[j].address != address
  }

  /** A second start is an error; otherwise the first row of that address is opened, or none. */
  lemma Starts(d: Db, address: nat, i: nat)
    ensures d.started ==> StartByAddress(d, address) == d.(error := true)
    ensures var e := StartByAddress(d, address);
            !d.started ==>
              && Open(e) && e.registry == d.registry && e.files == d.files && e.counts == d.counts
              && (e.missing <==> forall c | c in d.registry :: c.address != address)
              && (IsFirst(d.registry, address, i) ==> e.entry == d.registry[i])
  {
    var k := First(d.registry, ByAddress(address));
    if k < |d.registry| {
      assert d.registry[k] in d.registry && ByAddress(address)(d.registry[k]);
    }
    forall c | c in d.registry && k == |d.registry| ensures c.address != address {
      var j :| 0 <= j < |d.registry| && d.registry[j] == c;
      assert !ByAddress(address)(d.registry[j]);
    }
    if IsFirst(d.registry, address, i) {
      FirstIs(d.registry, ByAddress(address), i);
    }
  }

  /** The answers of apply_transaction: 1, 0 after an error or without a start, and -1 as an unsigned byte. */
  lemma Answers(d: Db)
    ensures d.started && !d.error && !d.missing ==> ApplyCode(d) == 1
    ensures d.started && !d.error && d.missing ==> ApplyCode(d) == 255
    ensures !d.started || d.error ==> ApplyCode(d) == 0
  {
  }

  /** What is an error, and then changes nothing: resetting another client, deleting one that has subscriptions, adding
      one that is there, an id of 24 characters, a topic id nobody subscribed to, a publish id in another's slot. */
  lemma Errors(d: Db, id: string, address: nat, duration: nat, topicId: nat, publishId: nat, msgId: nat)
    requires d.started && !d.error
    ensures !d.missing && d.entry.id != id ==> Store.ResetClient(d, id, address, duration) == d.(error := true)
    ensures !d.missing && (exists s :: s in Mine(d).subs && s.topicId != 0) ==>
              Store.DeleteClient(d, id) == d.(error := true)
    ensures !d.missing || |id| >= 24 ==> Store.AddClient(d, id, address, duration) == d.(error := true)
    ensures topicId != 0 && (forall s | s in Mine(d).subs :: s.topicId != topicId) ==>
              Store.DeleteSubscription(d, topicId) == d.(error := true)
    ensures !d.missing && 1 <= publishId <= |Mine(d).queue| && Mine(d).queue[publishId - 1].publishId != publishId ==>
              && Store.RemovePublish(d, publishId) == d.(error := true)
              && Store.SetPublishMsgId(d, publishId, msgId) == d.(error := true)
    ensures !d.missing ==> Store.IsTopicKnown(d, 0, true) == (d.(error := true), false)
  {
    var subs := Mine(d).subs;
    if s :| s in subs && s.topicId != 0 {
      var i :| 0 <= i < |subs| && subs[i] == s;
      SomeCounted(subs, i);
    }
    var k := First(subs, SubscriptionWithId(topicId));
    if k < |subs| {
      assert subs[k] in subs && SubscriptionWithId(topicId)(subs[k]);
    }
  }

  lemma {:induction false} SomeCounted(subs: seq<Subscription>, i: nat)
    requires i < |subs| && IsSubscription(subs[i])
    ensures Count(subs, IsSubscription) > 0
  {
    if i < |subs| - 1 {
      SomeCounted(subs[..|subs| - 1], i);
    }
  }

  /** The subscription queries answer from the first slot of the name: -1 and 0 without one. */
  lemma Queries(d: Db, name: string, i: nat)
    requires d.started && !d.error && !d.missing && name != ""
    ensures var subs := Mine(d).subs;
            if exists s :: s in subs && s.name == name then
              i < |subs| && subs[i].name == name && (forall j | 0 <= j < i :: subs[j].name != name) ==>
                SubscriptionQos(d, name) == subs[i].qos && SubscriptionTopicId(d, name) == subs[i].topicId
            else SubscriptionQos(d, name) == -1 && SubscriptionTopicId(d, name) == 0
  {
    var subs := Mine(d).subs;
    var k := First(subs, SubscriptionNamed(name));
    if s :| s in subs && s.name == name {
      if i < |subs| && subs[i].name == name && forall j | 0 <= j < i :: subs[j].name != name {
        FirstIs(subs, SubscriptionNamed(name), i);
      }
    } else {
      forall j | 0 <= j < |subs| ensures !SubscriptionNamed(name)(subs[j]) {
        assert subs[j] in subs;
      }
      FirstNone(subs, SubscriptionNamed(name));
    }
  }

  /** A registered topic counts as known if its record says so; for any other the missing return decides. */
  lemma KnownAnswers(d: Db, id: nat, garbage: bool, i: nat)
    requires Ready(d) && id != 0
    ensures var regs := Mine(d).regs;
            if exists r :: r in regs && r.topicId == id then
              i < |regs| && regs[i].topicId == id && (forall j | 0 <= j < i :: regs[j].topicId != id) ==>
                IsTopicKnown(d, id, garbage) == (d, regs[i].known)
            else IsTopicKnown(d, id, garbage) == (d, garbage)
  {
    var regs := Mine(d).regs;
    if r :| r in regs && r.topicId == id {
      if i < |regs| && regs[i].topicId == id && forall j | 0 <= j < i :: regs[j].topicId != id {
        FirstIs(regs, RegistrationWithId(id), i);
      }
    } else {
      forall j | 0 <= j < |regs| ensures !RegistrationWithId(id)(regs[j]) {
        assert regs[j] in regs;
      }
      FirstNone(regs, RegistrationWithId(id));
    }
  }

  /** Slot i is the last one that is a hole; it is -1 if none is. */
  ghost predicate IsLast(holes: seq<bool>, i: int) {
    -1 <= i < |holes| && (i >= 0 ==> holes[i]) && forall j | i < j < |holes| :: !holes[j]
  }

  ghost function Holes<T>(t: seq<T>, hole: T -> bool): (h: seq<bool>)
    ensures |h| == |t| && forall j | 0 <= j < |t| :: h[j] == hole(t[j])
  {
    seq(|t|, j requires 0 <= j < |t| => hole(t[j]))
  }

  lemma Written<T>(t: seq<T>, k: nat, x: T, zero: T)
    requires k <= |t|
    ensures Write(t, k, x, zero) == if k == |t| then t + [x] else t[k := x]
  {
  }

  /** New records fill the last hole, and only a table without one grows. */
  lemma FillsRegistration(d: Db, name: TopicName, i: int)
    requires Ready(d) && forall r | r in Mine(d).regs :: r.name != name
    requires IsLast(Holes(Mine(d).regs, (r: Registration) => r.topicId == 0 && r.name == ""), i)
    ensures var regs := Mine(d).regs;
            var added := Registration(name := name, topicId := |regs| + 1, known := true);
            Store.AddRegistration(d, name, 0) ==
            (SetMine(d, Mine(d).(regs := if i == -1 then regs + [added] else regs[i := added])), |regs| + 1)
  {
    hide First, Place, Write;
    var regs := Mine(d).regs;
    FirstNone(regs, RegistrationNamed(name));
    PlaceIs(regs, NoRegistration, i);
    Written(regs, Place(regs, NoRegistration), Registration(|regs| + 1, name, true), NO_REGISTRATION);
  }

  lemma FillsSubscription(d: Db, name: TopicName, id: nat, qos: nat, i: int)
    requires Ready(d) && name != "" && id != 0 && forall s | s in Mine(d).subs :: s.name != name
    requires IsLast(Holes(Mine(d).subs, (s: Subscription) => s.topicId == 0 && s.name == ""), i)
    ensures var subs, added := Mine(d).subs, Subscription(id, qos, name);
            Store.AddSubscription(d, name, id, qos) ==
            SetMine(d, Mine(d).(subs := if i == -1 then subs + [added] else subs[i := added]))
  {
    hide First, Place, Write;
    var subs := Mine(d).subs;
    FirstNone(subs, SameSubscription(id, name));
    PlaceIs(subs, NoSubscription, i);
    Written(subs, Place(subs, NoSubscription), Subscription(id, qos, name), NO_SUBSCRIPTION);
  }

  lemma FillsCount(d: Db, name: TopicName, i: int)
    requires !d.error && name != "" && forall c | c in d.counts :: c.name != name
    requires IsLast(Holes(d.counts, (c: GlobalCount) => c.count == 0 && c.name == ""), i)
    ensures var added := GlobalCount(1, name);
            Increment(d, name) == d.(counts := if i == -1 then d.counts + [added] else d.counts[i := added])
  {
    hide First, Place, Write;
    FirstNone(d.counts, CountFor(name));
    PlaceIs(d.counts, NoCount, i);
    Written(d.counts, Place(d.counts, NoCount), GlobalCount(1, name), NO_COUNT);
  }

  /** The two halves of a will are stored independently of each other, and a topic of 255 characters is not stored. */
  lemma WillHalves(d: Db, topic: string, qos: nat, retain: bool, message: seq<int>)
    requires Ready(d)
    ensures var will := if Mine(d).will.Some? then Mine(d).will.value else Will("", [], 0, false);
            && SetWillTopic(d, topic, qos, retain) ==
               (if |topic| >= 255 then d
                else SetMine(d, Mine(d).(will := Some(Will(topic, will.message, qos, retain)))))
            && SetWillMessage(d, message) ==
               SetMine(d, Mine(d).(will := Some(Will(will.topic, message, will.qos, will.retain))))
  {
  }

  /** A message that carries another slot's publish id, as a misplaced write can leave it, is not sent: the transaction
      fails. One that carries an id past the end is sent and stays. */
  lemma MisplacedIsNotSent(s: Sys, d: Db, address: nat, next: Publish, garbage: bool)
    requires Ready(d) && IsTopicKnown(d, next.topicId, garbage).1 && next.qos <= 1
    ensures 1 <= next.publishId <= |Mine(d).queue| && Mine(d).queue[next.publishId - 1].publishId != next.publishId ==>
              SendNext(s, d, address, next, garbage).log == s.log
    ensures next.publishId > |Mine(d).queue| && next.qos == 0 ==>
              var t := SendNext(s, d, address, next, garbage);
              && t.log == s.log + [PublishSent(d.entry.fileNumber, address, 0, next)] && t.db.files == d.files
  {
  }
}
