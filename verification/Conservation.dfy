/** Reference counts over whole runs: what keeps tables, counts and broker right, step by step and run by run. */
module Conservation {
  import opened Bytes
  import opened Scan
  import opened Store
  import opened Gateway
  import opened Soundness
  import opened Operations
  import opened Removal
  import opened Unsubscribing

  // SUBSCRIBE

  /** The only operation by which a client comes to hold a topic that no count mentions: a first SUBSCRIBE that the
      broker turns down. */
  ghost predicate TurnedDown(s: Sys, step: Step) {
    step.Subscribe? && AsksBroker(s, step.address, step.topicId, step.shortTopic) && !step.accepted
  }

  /** SUBSCRIBE keeps the broker in step and no count above its holders; and it keeps right counts right exactly when
      the broker, if it is asked, accepts. */
  lemma SubscribeKeepsIffAccepted(s: Sys, address: nat, topicId: nat, shortTopic: bool, qos: nat, accepted: bool)
    requires Inv(s) && address != 0
    ensures var t := Gateway.AddSubscription(s, address, topicId, shortTopic, qos, accepted);
            && Inv(t)
            && (AtMost(s.db.files, s.db.counts) ==> AtMost(t.db.files, t.db.counts))
            && (BrokerCounted(s.broker, s.db.counts) ==> BrokerCounted(t.broker, t.db.counts))
            && (BrokerOk(s.broker, s.db.counts) ==> BrokerOk(t.broker, t.db.counts))
            && (Conserved(s.db.files, s.db.counts) ==>
                  (Conserved(t.db.files, t.db.counts) <==> (AsksBroker(s, address, topicId, shortTopic) ==> accepted)))
  {
    hide Sound, Inv, Resolve, Enter, CountOf, HoldsTopic, AtMost, BrokerCounted, BrokerOk, Conserved, SameCounting,
      Harmless;
    SubscribeKeeps(s, address, topicId, shortTopic, qos, accepted);
    if s.online {
      var open := StartByAddress(s.db, address);
      Opened(s, address);
      ClosesTo(s, address, open, s.log);
      SameCountingTallies(s, s.(db := Apply(open)));
      if Ready(open) {
        ResolveKeeps(open, topicId, shortTopic);
        var (resolved, name, id) := Resolve(open, topicId, shortTopic);
        ResolvedTallies(s, open, resolved);
        if name.Some? {
          EnteredTallies(s.(db := resolved), name.value, id, if qos >= 1 then 1 else 0);
          FirstIgnoresQos(resolved, name.value, id, if qos >= 1 then 1 else 0);
        }
      }
    }
  }

  lemma ResolvedTallies(s: Sys, open: Db, resolved: Db)
    requires SameTables(s.db, open) && SameSubs(open.files, resolved.files) && resolved.counts == open.counts
    ensures Tallies(s, s.(db := resolved)) && Tallies(s, s.(db := Apply(resolved)))
  {
    SameCountingTallies(s, s.(db := resolved));
    SameCountingTallies(s, s.(db := Apply(resolved)));
  }

  /** The three ends of a SUBSCRIBE after its subscription has been entered. */
  lemma EnteredTallies(s: Sys, name: TopicName, id: nat, qos: nat)
    requires Sound(s.db) && Ready(s.db) && 1 <= id <= |Mine(s.db).regs| && Mine(s.db).regs[id - 1].name == name
    ensures var (entered, first) := Enter(s.db, name, id, qos);
            var done := Apply(entered);
            && (!first ==> Tallies(s, s.(db := done)))
            && (first ==> Tallies(s, s.(db := done, broker := s.broker + {name})))
            && (first ==> TalliesButOne(s, s.(db := Decrement(done, name))))
  {
    hide RowsOk, EntryOk, FilesOk, CountOf, HoldsTopic, Enter, CountsOk, Holders, Decremented;
    var d := s.db;
    EnterKeeps(d, name, id, qos);
    var (entered, first) := Enter(d, name, id, qos);
    var done := Apply(entered);
    if name == "" || HoldsTopic(Mine(d).subs, name) {
      SameCountingTallies(s, s.(db := done));
    } else {
      NewHolder(d, entered, name);
      if first {
        forall topic: string ensures TopicTallies(s, s.(db := done, broker := s.broker + {name}), topic) {
        }
        EachTallies(s, s.(db := done, broker := s.broker + {name}));
        NotCounted(s, s.(db := Decrement(done, name)), done, name);
      } else {
        forall topic: string ensures TopicTallies(s, s.(db := done), topic) {
        }
        EachTallies(s, s.(db := done));
      }
    }
  }

  /** As Tallies, but for a holder whom no count mentions. */
  ghost predicate TalliesButOne(s: Sys, t: Sys) {
    && (AtMost(s.db.files, s.db.counts) ==> AtMost(t.db.files, t.db.counts))
    && (BrokerOk(s.broker, s.db.counts) ==> BrokerOk(t.broker, t.db.counts))
    && (BrokerCounted(s.broker, s.db.counts) ==> BrokerCounted(t.broker, t.db.counts))
    && !Conserved(t.db.files, t.db.counts)
  }

  lemma NewHolder(d: Db, e: Db, name: string)
    requires OnlyMine(d, e) && e.entry == d.entry && !d.missing && !e.missing && !HoldsTopic(Mine(d).subs, name)
    requires forall topic :: HoldsTopic(Mine(e).subs, topic) <==> HoldsTopic(Mine(d).subs, topic) || topic == name
    ensures forall topic ::
      |Holders(e.files, topic)| == |Holders(d.files, topic)| + if topic == name then 1 else 0
  {
    hide HoldsTopic, Holders;
    forall topic: string
      ensures |Holders(e.files, topic)| == |Holders(d.files, topic)| + if topic == name then 1 else 0
    {
      var n := d.entry.fileNumber;
      HoldersUpdate(d.files, n, Mine(e), topic);
      HoldersAreFiles(d.files, topic);
      assert HoldsTopic(Mine(e).subs, name);
      assert topic == name ==> Holders(e.files, topic) == Holders(d.files, topic) + {n};
      assert topic != name ==> Holders(e.files, topic) == Holders(d.files, topic);
    }
  }

  /** A first subscriber that the broker turns down is a holder without a count. */
  lemma RefusedBreaks(files: map<nat, Files>, counts: seq<GlobalCount>, name: string)
    requires CountsOk(counts) && name != "" && CountOf(counts, name) == 1 && |Holders(files, name)| > 0
    ensures CountOf(Decremented(counts, name), name) == 0 && !Conserved(files, Decremented(counts, name))
  {
    hide CountOf, Decremented, Holders, CountsOk;
    DecrementCounts(counts, name, name);
  }

  /** The count of a new first holder is taken back. */
  lemma NotCounted(s: Sys, t: Sys, done: Db, name: string)
    requires t == s.(db := Decrement(done, name)) && !done.error && name != "" && CountsOk(done.counts)
    requires CountOf(s.db.counts, name) == 0
    requires forall topic ::
      CountOf(done.counts, topic) == CountOf(s.db.counts, topic) + if topic == name then 1 else 0
    requires forall topic ::
      |Holders(done.files, topic)| == |Holders(s.db.files, topic)| + if topic == name then 1 else 0
    ensures TalliesButOne(s, t)
  {
    hide CountOf, Holders, CountsOk, Decremented;
    RefusedBreaks(done.files, done.counts, name);
    forall topic: string
      ensures CountOf(t.db.counts, topic) == CountOf(s.db.counts, topic)
      ensures |Holders(t.db.files, topic)| >= |Holders(s.db.files, topic)|
    {
      DecrementCounts(done.counts, name, topic);
    }
  }

  // Steps

  lemma ConnectTallies(s: Sys, id: string, duration: nat, clean: bool, address: nat)
    requires Inv(s) && id != "" && address != 0
    ensures Tallies(s, Gateway.AddClient(s, id, duration, clean, address))
  {
    hide Sound, Inv, Store.AddClient, ResetClient, DropClient, Tallies, Released, HoldsTopic;
    InvIsSound(s);
    var t := Gateway.AddClient(s, id, duration, clean, address);
    SameTablesTally(s, s);
    if s.online {
      var open := s.(db := StartById(s.db, id));
      StartByIdKeeps(s.db, id);
      if |id| >= MAXIMUM_CLIENT_ID_LENGTH {
        NotStarted(open.db, id, address, duration * 1000);
        SameCountingTallies(s, t);
      } else if !Ready(open.db) {
        AddClientRowKeeps(open.db, id, address, duration * 1000);
        SameCountingTallies(s, t);
      } else if !clean {
        ResetClientKeeps(open.db, address, duration * 1000);
        SameCountingTallies(s, t);
      } else {
        RowsInOrder(s);
        CleanTallies(open, id, address, duration * 1000, t);
        SameTablesTally(s, open);
        TalliesChain(s, s, open, t);
      }
    }
  }

  lemma CleanTallies(open: Sys, id: ClientId, address: nat, duration: nat, t: Sys)
    requires Sound(open.db) && RowsOk(open.db.registry) && Ready(open.db) && id != "" && address != 0
    requires var dropped := DropClient(open, id);
             var e := Store.AddClient(dropped.db, id, address, duration);
             t.db.files == e.files && t.db.counts == e.counts && t.broker == dropped.broker
    ensures Tallies(open, t)
  {
    hide Sound, RowsOk, Store.AddClient, DropClient, Tallies, Released, HoldsTopic;
    DropClientKeeps(open, id);
    var dropped, n := DropClient(open, id), open.db.entry.fileNumber;
    assert Mine(open.db) == FilesAt(open.db.files, n);
    forall topic ensures Released(open, dropped, topic, HoldsTopic(FilesAt(open.db.files, n).subs, topic)) {
    }
    DropClientTallies(open, dropped, n);
    RowDeletedOk(open.db.registry, id);
    AddClientRowKeeps(dropped.db, id, address, duration);
    SameCountingTallies(dropped, t);
    TalliesChain(open, open, dropped, t);
  }

  lemma InvIsSound(s: Sys)
    requires Inv(s)
    ensures Sound(s.db) && Idle(s.db)
  {
  }

  lemma TalliesChain(s: Sys, open: Sys, t: Sys, u: Sys)
    requires open.db.files == s.db.files && open.db.counts == s.db.counts && open.broker == s.broker
    requires Tallies(open, t) && Tallies(t, u)
    ensures Tallies(s, u)
  {
    hide AtMost, BrokerCounted, BrokerOk, Conserved;
  }

  lemma HandleTimeoutTallies(s: Sys, row: Client, elapsed: nat)
    requires Inv(s) && (row.status in {ACTIVE, ASLEEP, AWAKE} ==> row.address != 0 && row.id != "")
    ensures Tallies(s, HandleTimeout(s, row, elapsed))
  {
    hide Inv, Sound, Harmless, SetTimeout, SetStatus, Expire, Tallies, SameCounting;
    SameTablesTally(s, s);
    if row.status in {ACTIVE, ASLEEP, AWAKE} {
      var timeout := (row.timeout + elapsed) % 0x1_0000_0000;
      var d := StartByAddress(s.db, row.address);
      Opened(s, row.address);
      TimeoutKeeps(d, timeout);
      var timed := SetTimeout(d, timeout);
      HarmlessSound(d, timed);
      StatusKeeps(timed, LOST);
      var lost := SetStatus(timed, LOST);
      HarmlessSound(timed, lost);
      SameTablesTally(s, s.(db := Apply(timed)));
      ExpireTallies(s.(db := lost), row.id);
      SameTablesTally(s, s.(db := lost));
      TalliesChain(s, s, s.(db := lost), Expire(s.(db := lost), row.id));
    }
  }

  lemma SameTablesTally(s: Sys, t: Sys)
    requires t.db.files == s.db.files && t.db.counts == s.db.counts && t.broker == s.broker
    ensures Tallies(s, t)
  {
  }

  lemma ExpireTallies(s: Sys, id: ClientId)
    requires Sound(s.db) && id != ""
    ensures Tallies(s, Expire(s, id))
  {
    hide Sound, DropClient, Tallies, Released, HoldsTopic;
    SameTablesTally(s, s.(db := Apply(s.db)));
    if Ready(s.db) && Mine(s.db).will.Some? {
      var willed := s.(log := s.log + [WillPublished(s.db.entry.fileNumber, Mine(s.db).will.value)]);
      DropClientKeeps(willed, id);
      var dropped := DropClient(willed, id);
      DropClientTallies(willed, dropped, s.db.entry.fileNumber);
      SameTablesTally(dropped, dropped.(db := Apply(dropped.db)));
      TalliesChain(s, willed, dropped, dropped.(db := Apply(dropped.db)));
    }
  }

  lemma VisitTallies(s: Sys, n: nat, heartbeat: Option<nat>, garbage: bool)
    requires Inv(s)
    ensures Tallies(s, Visit(s, n, heartbeat, garbage))
  {
    hide Inv, HandlePublishes, AnswerPing, HandleTimeout, RowsOk, Tallies, SameCounting;
    var row := NthClient(s.db, n);
    RowsInOrder(s);
    if n < |s.db.registry| && row.status != EMPTY {
      RowInUse(s.db.registry, n);
    }
    HandlePublishesKeeps(s, row.status, row.address, garbage);
    var t := HandlePublishes(s, row.status, row.address, garbage);
    AnswerPingKeeps(t, row.status, row.address);
    var u := AnswerPing(t, row.status, row.address);
    SameCountingTallies(s, t);
    SameCountingTallies(t, u);
    TalliesChain(s, s, t, u);
    if heartbeat.Some? {
      HandleTimeoutTallies(u, row, heartbeat.value);
      TalliesChain(s, s, u, HandleTimeout(u, row, heartbeat.value));
    }
  }

  /** Every operation but SUBSCRIBE and UNSUBSCRIBE keeps right what is right about the counts. */
  lemma OthersTally(s: Sys, step: Step)
    requires Inv(s) && Legal(step) && !step.Subscribe? && !Unsubscribes(step)
    ensures Tallies(s, Do(s, step))
  {
    hide Inv, Gateway.AddClient, AwaitMessage, RegisterTopic, SetState, RegackArrived, PubackArrives, ReceivePublish,
      Visit, AddWillTopic, AddWillMessage, RemoveWill, Tallies, SameCounting;
    match step {
      case Connect(id, duration, clean, address) => ConnectTallies(s, id, duration, clean, address);
      case VisitStep(n, heartbeat, garbage) => VisitTallies(s, n, heartbeat, garbage);
      case BrokerLink(online) => SameTablesTally(s, s.(online := online));
      case _ =>
        QuietCounting(s, step);
        SameCountingTallies(s, Do(s, step));
    }
  }

  lemma QuietCounting(s: Sys, step: Step)
    requires Inv(s) && Legal(step) && !step.Subscribe? && !Unsubscribes(step)
    requires !step.Connect? && !step.VisitStep? && !step.BrokerLink?
    ensures Inv(Do(s, step)) && SameCounting(s, Do(s, step))
  {
    hide Inv, AwaitMessage, RegisterTopic, SetState, RegackArrived, PubackArrives, ReceivePublish, AddWillTopic,
      AddWillMessage, RemoveWill, SameCounting;
    match step {
      case AwaitStep(address, await) => AwaitStepKeeps(s, address, await);
      case Register(address, name) => RegisterKeeps(s, address, name);
      case SetStateStep(address, status) => SetStateKeeps(s, address, status);
      case Regack(address, msgId, code) => RegackKeeps(s, address, msgId, code);
      case Puback(address, queue) => PubackKeeps(s, address, queue);
      case BrokerPublish(address, topic, data, retain) => ReceivePublishKeeps(s, address, topic, data, retain);
      case _ => WillStepsKeep(s, step);
    }
  }

  /** Every legal operation keeps the tables in order, exactly unless it makes a hole. */
  lemma StepKeepsIff(s: Sys, step: Step)
    requires Inv(s) && Legal(step)
    ensures Inv(Do(s, step)) <==> !MakesHole(s, step)
  {
    hide Inv, Gateway.AddClient, AwaitMessage, RegisterTopic, Gateway.AddSubscription, SetState, RegackArrived,
      PubackArrives, ReceivePublish, Visit, AddWillTopic, AddWillMessage, RemoveWill, DeleteTopic, TakesAnother,
      SameCounting;
    match step {
      case Connect(id, duration, clean, address) => ConnectKeeps(s, id, duration, clean, address);
      case Subscribe(address, topicId, shortTopic, qos, accepted) =>
        SubscribeKeeps(s, address, topicId, shortTopic, qos, accepted);
      case UnsubscribeStep(address, topicId, _) => DeleteKeepsIff(s, address, AskedName(s, step), topicId);
      case UnsubscribeNameStep(address, name) => DeleteKeepsIff(s, address, Some(name), 0);
      case VisitStep(n, heartbeat, garbage) => VisitKeeps(s, n, heartbeat, garbage);
      case BrokerLink(online) => OnlineKeeps(s, online);
      case _ => QuietCounting(s, step);
    }
  }

  lemma OnlineKeeps(s: Sys, online: bool)
    requires Inv(s)
    ensures Inv(s.(online := online))
  {
  }

  /** What every legal operation does for the counts, holes apart: none comes to exceed its topic's holders, and the
      broker never has a topic without one; right counts stay right exactly unless a first SUBSCRIBE is turned down or
      an UNSUBSCRIBE takes a count away; and the broker stays in step exactly unless an UNSUBSCRIBE stops it. */
  lemma CountsKeptIff(s: Sys, step: Step)
    requires Inv(s) && Legal(step) && !MakesHole(s, step)
    ensures var t := Do(s, step);
            && (AtMost(s.db.files, s.db.counts) ==> AtMost(t.db.files, t.db.counts))
            && (BrokerCounted(s.broker, s.db.counts) ==> BrokerCounted(t.broker, t.db.counts))
            && (Conserved(s.db.files, s.db.counts) ==>
                  (Conserved(t.db.files, t.db.counts) <==> !TurnedDown(s, step) && !Uncounts(s, step)))
            && (BrokerOk(s.broker, s.db.counts) ==> (BrokerOk(t.broker, t.db.counts) <==> !Deafens(s, step)))
  {
    hide Inv, Gateway.AddSubscription, DeleteTopic, AtMost, BrokerCounted, Conserved, BrokerOk, TakesAnother,
      HoldsNamed, Counted, StartByAddress, NamedTopic;
    if step.Subscribe? {
      SubscribeKeepsIffAccepted(s, step.address, step.topicId, step.shortTopic, step.qos, step.accepted);
    } else if Unsubscribes(step) {
      DeleteTallies(s, step.address, AskedName(s, step), AskedId(step));
      UnsubscribeIs(s, step);
    } else {
      OthersTally(s, step);
    }
  }

  /** So an operation keeps everything, tables, counts and broker, exactly unless it is one of these four. */
  lemma StepBalancesIff(s: Sys, step: Step)
    requires Balanced(s) && Legal(step)
    ensures Balanced(Do(s, step)) <==>
            !MakesHole(s, step) && !TurnedDown(s, step) && !Uncounts(s, step) && !Deafens(s, step)
  {
    hide Inv, Do, AtMost, BrokerCounted, Conserved, BrokerOk, MakesHole, TurnedDown, Uncounts, Deafens;
    StepKeepsIff(s, step);
    if !MakesHole(s, step) {
      CountsKeptIff(s, step);
    }
  }

  // Runs

  /** A run of legal operations that make no hole. */
  ghost predicate GoodRun(s: Sys, steps: seq<Step>) {
    steps != [] ==>
      var before := steps[..|steps| - 1];
      && GoodRun(s, before)
      && Legal(steps[|steps| - 1]) && !MakesHole(Run(s, before), steps[|steps| - 1])
  }

  lemma GoodSnoc(s: Sys, steps: seq<Step>, step: Step)
    requires GoodRun(s, steps) && Legal(step) && !MakesHole(Run(s, steps), step)
    ensures GoodRun(s, steps + [step]) && Run(s, steps + [step]) == Do(Run(s, steps), step)
  {
    hide Do, MakesHole;
    assert (steps + [step])[..|steps|] == steps;
  }

  lemma {:induction false} RunKeeps(s: Sys, steps: seq<Step>)
    requires Inv(s) && GoodRun(s, steps)
    ensures Inv(Run(s, steps))
  {
    hide Inv, Do, MakesHole;
    if steps != [] {
      RunKeeps(s, steps[..|steps| - 1]);
      StepKeepsIff(Run(s, steps[..|steps| - 1]), steps[|steps| - 1]);
    }
  }

  lemma FreshIsSound(s: Sys)
    requires Fresh(s)
    ensures Inv(s)
  {
  }

  lemma FreshIsBalanced(s: Sys)
    requires Fresh(s)
    ensures Balanced(s) && AtMost(s.db.files, s.db.counts) && BrokerCounted(s.broker, s.db.counts)
  {
    forall topic: string ensures CountOf(s.db.counts, topic) == 0 && Holders(s.db.files, topic) == {} {
    }
  }

  /** Over every good run, refused subscribes and UNSUBSCRIBEs included, no count exceeds the number of clients that
      hold its topic, and the gateway is subscribed at the broker to topics with a positive count only. */
  lemma {:induction false} CountsNeverExceed(s: Sys, steps: seq<Step>)
    requires Fresh(s) && GoodRun(s, steps)
    ensures var end := Run(s, steps); AtMost(end.db.files, end.db.counts) && BrokerCounted(end.broker, end.db.counts)
  {
    hide Inv, Do, Fresh, MakesHole, AtMost, BrokerCounted, Conserved, BrokerOk, TurnedDown, Uncounts, Deafens;
    FreshIsBalanced(s);
    if steps != [] {
      var before := steps[..|steps| - 1];
      CountsNeverExceed(s, before);
      BalancedInv(s);
      RunKeeps(s, before);
      CountsKeptIff(Run(s, before), steps[|steps| - 1]);
    }
  }

  /** The operation spoils neither counts nor broker: the broker accepts a first SUBSCRIBE, and an UNSUBSCRIBE is for a
      topic its client or nobody holds. */
  ghost predicate Counts(s: Sys, step: Step) { !TurnedDown(s, step) && !Uncounts(s, step) && !Deafens(s, step) }

  /** A good run of such operations. */
  ghost predicate CountedRun(s: Sys, steps: seq<Step>) {
    steps != [] ==>
      var before := steps[..|steps| - 1];
      && CountedRun(s, before)
      && Legal(steps[|steps| - 1])
      && !MakesHole(Run(s, before), steps[|steps| - 1]) && Counts(Run(s, before), steps[|steps| - 1])
  }

  lemma {:induction false} CountedRunBalances(s: Sys, steps: seq<Step>)
    requires Balanced(s) && CountedRun(s, steps)
    ensures Balanced(Run(s, steps))
  {
    hide Balanced, Do, MakesHole, TurnedDown, Uncounts, Deafens;
    if steps != [] {
      CountedRunBalances(s, steps[..|steps| - 1]);
      StepBalancesIff(Run(s, steps[..|steps| - 1]), steps[|steps| - 1]);
    }
  }

  /** Reference-count conservation: after every such run, each topic's count in MQTT.SUB is the number of clients whose
      subscription table holds it, and the broker subscriptions are exactly the topics with a positive count. */
  lemma {:induction false} CountsAreConserved(s: Sys, steps: seq<Step>)
    requires Fresh(s) && CountedRun(s, steps)
    ensures var end := Run(s, steps);
            forall topic: string ::
              && CountOf(end.db.counts, topic) == |Holders(end.db.files, topic)|
              && (topic in end.broker <==> CountOf(end.db.counts, topic) > 0)
  {
    hide CountedRun, Run, CountOf, Holders, Fresh;
    FreshIsBalanced(s);
    CountedRunBalances(s, steps);
  }

  /** After every good run the removal loop of a clean CONNECT or an expired will ends for every client. */
  lemma {:induction false} ClientsCanBeRemoved(s: Sys, steps: seq<Step>, id: ClientId)
    requires Fresh(s) && GoodRun(s, steps) && id != ""
    ensures var t := Run(s, steps);
            var open := t.(db := StartById(t.db, id));
            var k := SubscriptionCount(open.db);
            Ready(open.db) ==> RemoveSubscriptions(open) == Turns(open, k) && SubscriptionCount(Turns(open, k).db) == 0
  {
    hide Inv, Sound, Run, GoodRun, Fresh, Turns, RemoveFrom, SubscriptionCount, Removing;
    FreshIsSound(s);
    RunKeeps(s, steps);
    var t := Run(s, steps);
    InvIsSound(t);
    StartByIdKeeps(t.db, id);
    var open := t.(db := StartById(t.db, id));
    if Ready(open.db) {
      ReadyToRemove(open);
      RemovalIsTurns(open, SubscriptionCount(open.db));
    }
  }

  // An empty gateway whose first subscriber the broker turns down

  const FIRST_CLIENT := Client("c", 0, 1, ACTIVE, 60000, 0, 0, PINGREQ)

  /** One client, with these files, and these counts. */
  ghost predicate OneClient(s: Sys, f: Files, counts: seq<GlobalCount>) {
    && s.db.registry == [FIRST_CLIENT] && s.db.files == map[0 := f] && s.db.counts == counts
    && Idle(s.db) && s.online
  }

  lemma FirstConnected(s: Sys)
    requires Fresh(s)
    ensures OneClient(Gateway.AddClient(s.(online := true), "c", 60, true, 1), NO_FILES, [])
  {
  }

  lemma FirstRegistered(s: Sys)
    requires OneClient(s, NO_FILES, [])
    ensures OneClient(RegisterTopic(s, 1, "t"), NO_FILES.(regs := [Registration(1, "t", true)]), [])
  {
    FirstFound(s);
    WrittenFirst(Registration(1, "t", true), NO_REGISTRATION);
  }

  lemma WrittenFirst<T>(x: T, zero: T)
    ensures Write([], 0, x, zero) == [x]
  {
  }

  lemma FirstFound(s: Sys)
    requires s.db.registry == [FIRST_CLIENT] && Idle(s.db)
    ensures StartByAddress(s.db, 1) == s.db.(started := true, error := false, missing := false, entry := FIRST_CLIENT)
  {
  }

  lemma FirstRefused(s: Sys)
    requires OneClient(s, NO_FILES.(regs := [Registration(1, "t", true)]), [])
    ensures OneClient(Gateway.AddSubscription(s, 1, 1, true, 0, false),
                      NO_FILES.(regs := [Registration(1, "t", true)], subs := [Subscription(1, 0, "t")]), [NO_COUNT])
  {
    hide Enter;
    FirstFound(s);
    var d := StartByAddress(s.db, 1);
    assert Resolve(d, 1, true) == (d, Some("t"), 1);
    FirstEntered(d);
    assert Decrement(Apply(Enter(d, "t", 1, 0).0), "t").counts == [NO_COUNT];
  }

  lemma FirstEntered(d: Db)
    requires Ready(d) && Mine(d).subs == [] && d.counts == []
    ensures Enter(d, "t", 1, 0) ==
            (SetMine(d, Mine(d).(subs := [Subscription(1, 0, "t")])).(counts := [GlobalCount(1, "t")]), true)
  {
    WrittenFirst(Subscription(1, 0, "t"), NO_SUBSCRIPTION);
    WrittenFirst(GlobalCount(1, "t"), NO_COUNT);
    assert Store.AddSubscription(d, "t", 1, 0) == SetMine(d, Mine(d).(subs := [Subscription(1, 0, "t")]));
    assert Incremented([], "t") == [GlobalCount(1, "t")];
  }

  /** The steps by which the first client comes to register "t". */
  const FIRST_STEPS := [BrokerLink(true), Connect("c", 60, true, 1), Register(1, "t")]

  lemma FirstSteps(s: Sys)
    requires Fresh(s)
    ensures GoodRun(s, FIRST_STEPS)
    ensures OneClient(Run(s, FIRST_STEPS), NO_FILES.(regs := [Registration(1, "t", true)]), [])
  {
    hide Gateway.AddClient, RegisterTopic;
    var steps := FIRST_STEPS;
    assert [] + [steps[0]] == steps[..1] && steps[..1] + [steps[1]] == steps[..2] && steps[..2] + [steps[2]] == steps;
    GoodSnoc(s, [], steps[0]);
    GoodSnoc(s, steps[..1], steps[1]);
    GoodSnoc(s, steps[..2], steps[2]);
    FirstConnected(s);
    FirstRegistered(Gateway.AddClient(s.(online := true), "c", 60, true, 1));
  }

  /** The client holds a topic that no count mentions: the tables are in order, and the counts are not right. */
  lemma RefusalExample(s: Sys)
    requires Fresh(s)
    ensures var steps := FIRST_STEPS + [Subscribe(1, 1, true, 0, false)];
            var end := Run(s, steps);
            && GoodRun(s, steps)
            && HoldsTopic(FilesAt(end.db.files, 0).subs, "t") && CountOf(end.db.counts, "t") == 0
            && !Conserved(end.db.files, end.db.counts)
  {
    hide Gateway.AddSubscription, Run, GoodRun;
    FirstSteps(s);
    var registered := Run(s, FIRST_STEPS);
    GoodSnoc(s, FIRST_STEPS, Subscribe(1, 1, true, 0, false));
    FirstRefused(registered);
    var end := Gateway.AddSubscription(registered, 1, 1, true, 0, false);
    assert FilesAt(end.db.files, 0).subs[0].name == "t";
    assert 0 in Holders(end.db.files, "t");
    assert CountOf(end.db.counts, "t") != |Holders(end.db.files, "t")|;
  }

  // A stranger's UNSUBSCRIBE

  lemma FirstAccepted(s: Sys)
    requires OneClient(s, NO_FILES.(regs := [Registration(1, "t", true)]), [])
    ensures OneClient(Gateway.AddSubscription(s, 1, 1, true, 0, true),
                      NO_FILES.(regs := [Registration(1, "t", true)], subs := [Subscription(1, 0, "t")]),
                      [GlobalCount(1, "t")])
  {
    hide Enter;
    FirstFound(s);
    var d := StartByAddress(s.db, 1);
    assert Resolve(d, 1, true) == (d, Some("t"), 1);
    FirstEntered(d);
  }

  /** With the UNSUBSCRIBE of a client nobody knows, a topic's only count and the gateway's subscription are gone, while
      its holder stays. */
  lemma StrangerExample(s: Sys)
    requires Fresh(s)
    ensures var steps := FIRST_STEPS + [Subscribe(1, 1, true, 0, true)] + [UnsubscribeNameStep(2, "t")];
            var end := Run(s, steps);
            && GoodRun(s, steps)
            && HoldsTopic(FilesAt(end.db.files, 0).subs, "t") && CountOf(end.db.counts, "t") == 0 && "t" !in end.broker
  {
    hide Gateway.AddSubscription, DeleteTopic, Decremented, Run, GoodRun, HoldsId;
    FirstSteps(s);
    FirstAccepted(Run(s, FIRST_STEPS));
    var steps := FIRST_STEPS + [Subscribe(1, 1, true, 0, true)];
    GoodSnoc(s, FIRST_STEPS, Subscribe(1, 1, true, 0, true));
    var served := Run(s, steps);
    StrangerIsUnknown(served);
    GoodSnoc(s, steps, UnsubscribeNameStep(2, "t"));
    OnlyCountChanges(served, StartByAddress(served.db, 2), "t");
    OnlyCount("t");
    assert FilesAt(served.db.files, 0).subs[0].name == "t";
  }

  lemma StrangerIsUnknown(s: Sys)
    requires s.db.registry == [FIRST_CLIENT] && Idle(s.db)
    ensures var d := StartByAddress(s.db, 2);
            Open(d) && d.missing && SameTables(s.db, d) && !MakesHole(s, UnsubscribeNameStep(2, "t"))
  {
  }

  lemma OnlyCount(name: TopicName)
    ensures CountOf(Decremented([GlobalCount(1, name)], name), name) == 0
  {
    assert CountFor(name)([GlobalCount(1, name)][0]);
  }
}
