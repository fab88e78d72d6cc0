/** The SD-card store as an object: files of records that each call scans and rewrites, inside one transaction at a
    time. Every method is proved against the function of the same purpose on store values. */
module Persistent {
  import opened Bytes
  import opened Scan
  import opened Store

  /** The scan of MQTT.SUB has met the topic's row, or the end. */
  lemma IncrementedRow(counts: seq<GlobalCount>, name: TopicName, i: nat)
    requires i < |counts| && CountFor(name)(counts[i]) && forall j | 0 <= j < i :: !CountFor(name)(counts[j])
    ensures Incremented(counts, name) == counts[i := counts[i].(count := counts[i].count + 1)]
  {
    FirstIs(counts, CountFor(name), i);
  }

  lemma IncrementedNew(counts: seq<GlobalCount>, name: TopicName, hole: int)
    requires forall j | 0 <= j < |counts| :: !CountFor(name)(counts[j])
    requires -1 <= hole < |counts| && (hole >= 0 ==> NoCount(counts[hole]))
    requires forall j | hole < j < |counts| :: !NoCount(counts[j])
    ensures Incremented(counts, name) ==
            Write(counts, if hole == -1 then |counts| else hole, GlobalCount(1, name), NO_COUNT)
  {
    hide Write;
    FirstNone(counts, CountFor(name));
    PlaceIs(counts, NoCount, hole);
  }

  class SDPersistent {
    var registry: seq<Client>
    var files: map<nat, Files>
    var counts: seq<GlobalCount>
    var predefined: map<nat, TopicName>
    var entryClient: Client
    var transactionStarted: bool
    var error: bool
    var notInClientRegistry: bool
    var mqttOnline: bool

    constructor (predefined: map<nat, TopicName>)
      ensures Value() == Db([], map[], [], predefined, NO_CLIENT, false, false, false) && !mqttOnline
    {
      registry, files, counts, this.predefined := [], map[], [], predefined;
      entryClient, transactionStarted, error, notInClientRegistry, mqttOnline := NO_CLIENT, false, false, false, false;
    }

    ghost function Value(): Db
      reads this
    {
      Db(registry, files, counts, predefined, entryClient, transactionStarted, error, notInClientRegistry)
    }

    /** The files of the transaction's client. */
    method OpenMine() returns (f: Files)
      ensures f == Mine(Value())
    {
      f := if !notInClientRegistry && entryClient.fileNumber in files then files[entryClient.fileNumber] else NO_FILES;
    }

    // Transactions

    method StartClientTransactionById(id: string)
      modifies `entryClient, `transactionStarted, `error, `notInClientRegistry
      ensures Value() == StartById(old(Value()), id)
    {
      if transactionStarted || |id| >= MAXIMUM_CLIENT_ID_LENGTH {
        error := true;
        return;
      }
      transactionStarted, error, notInClientRegistry := true, false, true;
      var lineNumber := 0;
      while lineNumber < |registry|
        invariant lineNumber <= |registry| && forall j | 0 <= j < lineNumber :: !ById(id)(registry[j])
        invariant transactionStarted && !error && notInClientRegistry
      {
        entryClient := registry[lineNumber];
        if entryClient.id == id {
          notInClientRegistry := false;
          FirstIs(registry, ById(id), lineNumber);
          return;
        }
        lineNumber := lineNumber + 1;
      }
      entryClient := NO_CLIENT;
      FirstNone(registry, ById(id));
    }

    method StartClientTransaction(address: nat)
      modifies `entryClient, `transactionStarted, `error, `notInClientRegistry
      ensures Value() == StartByAddress(old(Value()), address)
    {
      if transactionStarted {
        error := true;
        return;
      }
      transactionStarted, error, notInClientRegistry := true, false, false;
      var lineNumber := 0;
      while lineNumber < |registry|
        invariant lineNumber <= |registry| && forall j | 0 <= j < lineNumber :: !ByAddress(address)(registry[j])
        invariant transactionStarted && !error && !notInClientRegistry
      {
        entryClient := registry[lineNumber];
        if entryClient.address == address {
          FirstIs(registry, ByAddress(address), lineNumber);
          return;
        }
        lineNumber := lineNumber + 1;
      }
      entryClient := NO_CLIENT;
      notInClientRegistry := true;
      FirstNone(registry, ByAddress(address));
    }

    method ApplyTransaction() returns (code: nat)
      modifies `transactionStarted, `error, `notInClientRegistry
      ensures Value() == Apply(old(Value())) && code == ApplyCode(old(Value()))
    {
      var failed, started, missing := error, transactionStarted, notInClientRegistry;
      error, transactionStarted, notInClientRegistry := false, false, false;
      code := if !started || failed then 0 else if missing then 255 else 1;
    }

    method ClientExist() returns (exists_: bool)
      ensures exists_ == Ready(Value())
    {
      exists_ := transactionStarted && !error && !notInClientRegistry;
    }

    // The client registry

    method WriteEntryClient()
      modifies `registry
      ensures Value() == WriteEntry(old(Value()), entryClient)
    {
      registry := Write(registry, entryClient.fileNumber, entryClient, NO_CLIENT);
    }

    method ResetClient(id: string, address: nat, duration: nat)
      modifies `registry, `entryClient, `error, `notInClientRegistry
      ensures Value() == Store.ResetClient(old(Value()), id, address, duration)
    {
      if !transactionStarted || error || notInClientRegistry {
        return;
      }
      if |id| >= MAXIMUM_CLIENT_ID_LENGTH || entryClient.id != id {
        error := true;
        return;
      }
      var lineNumber := 0;
      while lineNumber < |registry|
        invariant lineNumber <= |registry| && forall j | 0 <= j < lineNumber :: !ById(id)(registry[j])
        invariant registry == old(registry) && transactionStarted && !error && !notInClientRegistry
      {
        entryClient := registry[lineNumber];
        if entryClient.id == id {
          entryClient := entryClient.(id := id, address := address, status := ACTIVE, duration := duration,
                                      timeout := 0, awaitId := 0, await := PINGREQ);
          FirstIs(registry, ById(id), lineNumber);
          registry := registry[lineNumber := entryClient];
          return;
        }
        lineNumber := lineNumber + 1;
      }
      FirstNone(registry, ById(id));
      entryClient, error, notInClientRegistry := NO_CLIENT, true, true;
    }

    method GetClientSubscriptionCount() returns (n: nat)
      ensures n == SubscriptionCount(Value())
    {
      if !transactionStarted || error || notInClientRegistry {
        return 0;
      }
      var mine := OpenMine();
      n := CountSlots(mine.subs, IsSubscription);
    }

    method DeleteClient(id: string)
      modifies `registry, `files, `entryClient, `error, `notInClientRegistry
      ensures Value() == Store.DeleteClient(old(Value()), id)
    {
      if !transactionStarted || error || notInClientRegistry {
        return;
      }
      if |id| >= MAXIMUM_CLIENT_ID_LENGTH {
        error := true;
        return;
      }
      var subscriptionCount := GetClientSubscriptionCount();
      if subscriptionCount > 0 {
        error := true;
        return;
      }
      files := files - {entryClient.fileNumber};
      var lineNumber := FindFirst(registry, ById(id));
      if lineNumber < |registry| {
        registry := registry[lineNumber := NO_CLIENT];
      }
      entryClient, notInClientRegistry := NO_CLIENT, true;
    }

    method AddClient(id: string, address: nat, duration: nat)
      modifies `registry, `files, `entryClient, `error, `notInClientRegistry
      ensures Value() == Store.AddClient(old(Value()), id, address, duration)
    {
      if !transactionStarted || error {
        return;
      }
      if !notInClientRegistry || |id| >= MAXIMUM_CLIENT_ID_LENGTH {
        error := true;
        return;
      }
      var emptySpace := FindFirst(registry, ById(""));
      entryClient := Client(id, emptySpace, address, ACTIVE, duration, 0, 0, PINGREQ);
      files := files[emptySpace := if emptySpace in files then files[emptySpace] else NO_FILES];
      WriteEntryClient();
      notInClientRegistry := false;
    }

    method SetClientState(status: Status)
      modifies `registry, `entryClient
      ensures Value() == SetStatus(old(Value()), status)
    {
      if transactionStarted && !error && !notInClientRegistry {
        entryClient := entryClient.(status := status);
        WriteEntryClient();
      }
    }

    method SetTimeout(timeout: nat)
      modifies `registry, `entryClient
      ensures Value() == Store.SetTimeout(old(Value()), timeout)
    {
      if transactionStarted && !error && !notInClientRegistry {
        entryClient := entryClient.(timeout := timeout);
        WriteEntryClient();
      }
    }

    method SetClientAwaitMessage(await: Await)
      modifies `registry, `entryClient
      ensures Value() == SetAwait(old(Value()), await)
    {
      if transactionStarted && !error && !notInClientRegistry {
        entryClient := entryClient.(await := await);
        WriteEntryClient();
      }
    }

    /** The assignment of the id is a comparison in the source, so only the row is written back. */
    method SetClientAwaitMsgId(msgId: nat)
      modifies `registry
      ensures Value() == SetAwaitId(old(Value()), msgId)
    {
      if transactionStarted && !error && !notInClientRegistry {
        WriteEntryClient();
      }
    }

    method GetClientAwaitMessageType() returns (await: Await)
      ensures await == AwaitType(Value())
    {
      await := if !transactionStarted || error || notInClientRegistry then PINGREQ else entryClient.await;
    }

    method GetClientAwaitMsgId() returns (msgId: nat)
      ensures msgId == AwaitId(Value())
    {
      msgId := if !transactionStarted || error || notInClientRegistry then 0 else entryClient.awaitId;
    }

    method GetClientStatus() returns (status: Status)
      ensures status == if Ready(Value()) then entryClient.status else LOST
    {
      status := if !transactionStarted || error || notInClientRegistry then LOST else entryClient.status;
    }

    /** The address of the last row in use, or zero. */
    method GetLastClientAddress() returns (address: nat)
      ensures address == LastAddress(Value())
    {
      address := 0;
      ghost var last := -1;
      var i := 0;
      while i < |registry|
        invariant i <= |registry| && -1 <= last < i
        invariant last >= 0 ==> InUse(registry[last])
        invariant forall j | last < j < i :: !InUse(registry[j])
        invariant address == if last == -1 then 0 else registry[last].address
      {
        if registry[i].status != EMPTY {
          address, last := registry[i].address, i;
        }
        i := i + 1;
      }
    }

    method GetNthClient(n: nat) returns (row: Client)
      ensures row == NthClient(Value(), n)
    {
      row := if n < |registry| then registry[n] else NO_CLIENT;
    }

    // Registrations

    /** One scan looks for the name and remembers the last hole on its way. */
    method AddClientRegistration(name: TopicName, before: nat) returns (id: nat)
      modifies `files
      ensures var (after, found) := AddRegistration(old(Value()), name, before); Value() == after && id == found
    {
      hide First, Last, Place, Write;
      id := before;
      if !transactionStarted || error || notInClientRegistry {
        return;
      }
      var mine := OpenMine();
      var regs := mine.regs;
      var firstEmptySpace, entryNumber := -1, 0;
      while entryNumber < |regs|
        invariant entryNumber <= |regs| && -1 <= firstEmptySpace < entryNumber
        invariant firstEmptySpace >= 0 ==> NoRegistration(regs[firstEmptySpace])
        invariant forall j | firstEmptySpace < j < entryNumber :: !NoRegistration(regs[j])
        invariant forall j | 0 <= j < entryNumber :: !RegistrationNamed(name)(regs[j])
      {
        if regs[entryNumber].topicId == 0 && regs[entryNumber].name == "" {
          firstEmptySpace := entryNumber;
        } else if regs[entryNumber].topicId != 0 && regs[entryNumber].name == name {
          FirstIs(regs, RegistrationNamed(name), entryNumber);
          return regs[entryNumber].topicId;
        }
        entryNumber := entryNumber + 1;
      }
      FirstNone(regs, RegistrationNamed(name));
      PlaceIs(regs, NoRegistration, firstEmptySpace);
      var place: nat := if firstEmptySpace == -1 then entryNumber else firstEmptySpace;
      id := entryNumber + 1;
      files := files[entryClient.fileNumber :=
        mine.(regs := Write(regs, place, Registration(id, name, true), NO_REGISTRATION))];
    }

    method GetTopicName(id: nat) returns (name: Option<TopicName>)
      ensures name == Store.GetTopicName(Value(), id)
    {
      if !transactionStarted || error || id == 0 {
        return None;
      }
      var mine := OpenMine();
      var i := FindFirst(mine.regs, RegistrationWithId(id));
      name := if i < |mine.regs| then Some(mine.regs[i].name) else None;
    }

    method GetPredefinedTopicName(id: nat) returns (name: Option<TopicName>)
      ensures name == PredefinedName(Value(), id)
    {
      name := if !error && id in predefined then Some(predefined[id]) else None;
    }

    /** Not implemented. */
    method GetTopicId(name: string) returns (id: nat)
      ensures id == 0
    {
      id := 0;
    }

    /** `garbage` is what the caller finds when the function runs off its end. */
    method IsTopicKnown(id: nat, garbage: bool) returns (known: bool)
      modifies `error
      ensures var (after, answer) := Store.IsTopicKnown(old(Value()), id, garbage); Value() == after && known == answer
    {
      if !transactionStarted || error || notInClientRegistry {
        return false;
      }
      if id == 0 {
        error := true;
        return false;
      }
      var mine := OpenMine();
      var i := FindFirst(mine.regs, RegistrationWithId(id));
      known := if i < |mine.regs| then mine.regs[i].known else garbage;
    }

    // Subscriptions

    method IsSubscribed(name: string) returns (subscribed: bool)
      ensures subscribed == Store.IsSubscribed(Value(), name)
    {
      if !transactionStarted || error || notInClientRegistry || name == "" {
        return false;
      }
      var mine := OpenMine();
      var i := FindFirst(mine.subs, SubscriptionNamed(name));
      subscribed := i < |mine.subs|;
    }

    method GetSubscriptionQos(name: string) returns (qos: int)
      ensures qos == SubscriptionQos(Value(), name)
    {
      if !transactionStarted || error || notInClientRegistry || name == "" {
        return 0;
      }
      var mine := OpenMine();
      var i := FindFirst(mine.subs, SubscriptionNamed(name));
      qos := if i < |mine.subs| then mine.subs[i].qos else -1;
    }

    method GetSubscriptionTopicId(name: string) returns (id: nat)
      ensures id == SubscriptionTopicId(Value(), name)
    {
      if !transactionStarted || error || notInClientRegistry || name == "" {
        return 0;
      }
      var mine := OpenMine();
      var i := FindFirst(mine.subs, SubscriptionNamed(name));
      id := if i < |mine.subs| then mine.subs[i].topicId else 0;
    }

    method AddSubscription(name: TopicName, id: nat, qos: nat)
      modifies `files
      ensures Value() == Store.AddSubscription(old(Value()), name, id, qos)
    {
      hide First, Last, Place, Write;
      if !transactionStarted || error || notInClientRegistry || name == "" || id == 0 {
        return;
      }
      var mine := OpenMine();
      var subs := mine.subs;
      var firstEmptySpace, entryNumber := -1, 0;
      while entryNumber < |subs|
        invariant entryNumber <= |subs| && -1 <= firstEmptySpace < entryNumber
        invariant firstEmptySpace >= 0 ==> NoSubscription(subs[firstEmptySpace])
        invariant forall j | firstEmptySpace < j < entryNumber :: !NoSubscription(subs[j])
        invariant forall j | 0 <= j < entryNumber :: !SameSubscription(id, name)(subs[j])
      {
        if subs[entryNumber].topicId == 0 && subs[entryNumber].name == "" {
          firstEmptySpace := entryNumber;
        } else if subs[entryNumber].topicId == id && subs[entryNumber].name == name {
          FirstIs(subs, SameSubscription(id, name), entryNumber);
          return;
        }
        entryNumber := entryNumber + 1;
      }
      FirstNone(subs, SameSubscription(id, name));
      PlaceIs(subs, NoSubscription, firstEmptySpace);
      var place: nat := if firstEmptySpace == -1 then entryNumber else firstEmptySpace;
      files := files[entryClient.fileNumber :=
        mine.(subs := Write(subs, place, Subscription(id, qos, name), NO_SUBSCRIPTION))];
    }

    method GetNthSubscribedTopicId(n: nat) returns (id: nat)
      ensures id == NthSubscribedTopicId(Value(), n)
    {
      if !transactionStarted || error {
        return 0;
      }
      var mine := OpenMine();
      id := if n < |mine.subs| then mine.subs[n].topicId else 0;
    }

    method DeleteSubscription(id: nat)
      modifies `files, `error
      ensures Value() == Store.DeleteSubscription(old(Value()), id)
    {
      if !transactionStarted || error || id == 0 {
        return;
      }
      var mine := OpenMine();
      var i := FindFirst(mine.subs, SubscriptionWithId(id));
      if i < |mine.subs| {
        files := files[entryClient.fileNumber := mine.(subs := mine.subs[i := NO_SUBSCRIPTION])];
      } else {
        error := true;
      }
    }

    // MQTT.SUB

    method IncrementGlobalSubscriptionCount(name: TopicName)
      modifies `counts
      ensures Value() == Increment(old(Value()), name)
    {
      if error || name == "" {
        return;
      }
      hide Incremented, Write;
      var firstEmptySpace, entryNumber := -1, 0;
      while entryNumber < |counts|
        invariant entryNumber <= |counts| && -1 <= firstEmptySpace < entryNumber && counts == old(counts)
        invariant firstEmptySpace >= 0 ==> NoCount(counts[firstEmptySpace])
        invariant forall j | firstEmptySpace < j < entryNumber :: !NoCount(counts[j])
        invariant forall j | 0 <= j < entryNumber :: !CountFor(name)(counts[j])
      {
        if counts[entryNumber].count == 0 && counts[entryNumber].name == "" {
          firstEmptySpace := entryNumber;
        } else if counts[entryNumber].count != 0 && counts[entryNumber].name == name {
          IncrementedRow(counts, name, entryNumber);
          counts := counts[entryNumber := counts[entryNumber].(count := counts[entryNumber].count + 1)];
          return;
        }
        entryNumber := entryNumber + 1;
      }
      IncrementedNew(counts, name, firstEmptySpace);
      var place: nat := if firstEmptySpace == -1 then entryNumber else firstEmptySpace;
      counts := Write(counts, place, GlobalCount(1, name), NO_COUNT);
    }

    method DecrementGlobalSubscriptionCount(name: string)
      modifies `counts
      ensures Value() == Decrement(old(Value()), name)
    {
      if error || name == "" {
        return;
      }
      var i := FindFirst(counts, CountFor(name));
      if i < |counts| {
        var less := counts[i].count - 1;
        counts := counts[i := if less == 0 then NO_COUNT else counts[i].(count := less)];
      }
    }

    method GetGlobalTopicSubscriptionCount(name: string) returns (n: nat)
      ensures n == GetCount(Value(), name)
    {
      if error || name == "" {
        return 0;
      }
      var i := FindFirst(counts, CountFor(name));
      n := if i < |counts| then counts[i].count else 0;
    }

    // Wills

    method SetClientWillTopic(topic: string, qos: nat, retain: bool)
      modifies `files
      ensures Value() == SetWillTopic(old(Value()), topic, qos, retain)
    {
      if !transactionStarted || error || notInClientRegistry || |topic| >= MAXIMUM_TOPIC_NAME_LENGTH {
        return;
      }
      var mine := OpenMine();
      var will := if mine.will.Some? then mine.will.value else NO_WILL;
      files := files[entryClient.fileNumber :=
        mine.(will := Some(will.(topic := topic, qos := qos, retain := retain)))];
    }

    method SetClientWillMessage(message: seq<int>)
      modifies `files
      ensures Value() == SetWillMessage(old(Value()), message)
    {
      if !transactionStarted || error || notInClientRegistry {
        return;
      }
      var mine := OpenMine();
      var will := if mine.will.Some? then mine.will.value else NO_WILL;
      files := files[entryClient.fileNumber := mine.(will := Some(will.(message := message)))];
    }

    method DeleteWill()
      modifies `files
      ensures Value() == Store.DeleteWill(old(Value()))
    {
      if transactionStarted && !error && !notInClientRegistry {
        var mine := OpenMine();
        files := files[entryClient.fileNumber := mine.(will := None)];
      }
    }

    /** has_client_will and get_client_will. */
    method GetClientWill() returns (will: Option<Will>)
      ensures will == if Ready(Value()) then Mine(Value()).will else None
    {
      if !transactionStarted || error || notInClientRegistry {
        return None;
      }
      var mine := OpenMine();
      will := mine.will;
    }

    // The publish queue

    method HasClientPublishes() returns (some: bool)
      ensures some == HasPublishes(Value())
    {
      if !transactionStarted || error || notInClientRegistry {
        return false;
      }
      var mine := OpenMine();
      var i := 0;
      while i < |mine.queue|
        invariant i <= |mine.queue| && forall j | 0 <= j < i :: !Queued(mine.queue[j])
      {
        if mine.queue[i].publishId != 0 {
          return true;
        }
        i := i + 1;
      }
      return false;
    }

    method AddNewClientPublish(data: seq<int>, topicId: nat, retain: bool, qos: nat)
      modifies `files
      ensures Value() == AddPublish(old(Value()), data, topicId, retain, qos)
    {
      if !transactionStarted || error || notInClientRegistry {
        return;
      }
      var mine := OpenMine();
      var place := FindPlace(mine.queue, NoPublish);
      files := files[entryClient.fileNumber :=
        mine.(queue := Write(mine.queue, place, Publish(data, topicId, qos, retain, 0, place + 1), NO_PUBLISH))];
    }

    method GetNextPublish() returns (next: Publish)
      ensures next == if Ready(Value()) then NextPublish(Mine(Value()).queue) else NO_PUBLISH
    {
      next := NO_PUBLISH;
      if !transactionStarted || error || notInClientRegistry {
        return;
      }
      var mine := OpenMine();
      var lastPublishEntry, entryNumber := -1, 0;
      while entryNumber < |mine.queue|
        invariant entryNumber <= |mine.queue| && -1 <= lastPublishEntry < entryNumber
        invariant lastPublishEntry >= 0 ==> Queued(mine.queue[lastPublishEntry])
        invariant forall j | lastPublishEntry < j < entryNumber :: !Queued(mine.queue[j])
      {
        if mine.queue[entryNumber].publishId != 0 {
          lastPublishEntry := entryNumber;
        }
        entryNumber := entryNumber + 1;
      }
      if lastPublishEntry != -1 {
        next := mine.queue[lastPublishEntry];
      }
    }

    /** A publish id of 0 makes the seek fail, so nothing is read. */
    method SetPublishMsgId(publishId: nat, msgId: nat)
      modifies `files, `error
      ensures Value() == Store.SetPublishMsgId(old(Value()), publishId, msgId)
    {
      if !transactionStarted || error || notInClientRegistry {
        return;
      }
      var mine := OpenMine();
      if 1 <= publishId <= |mine.queue| {
        var p := mine.queue[publishId - 1];
        if p.publishId == publishId {
          files := files[entryClient.fileNumber := mine.(queue := mine.queue[publishId - 1 := p.(msgId := msgId)])];
        } else {
          error := true;
        }
      }
    }

    method RemovePublishByPublishId(publishId: nat)
      modifies `files, `error
      ensures Value() == RemovePublish(old(Value()), publishId)
    {
      if !transactionStarted || error || notInClientRegistry {
        return;
      }
      var mine := OpenMine();
      if 1 <= publishId <= |mine.queue| {
        if mine.queue[publishId - 1].publishId == publishId {
          files := files[entryClient.fileNumber := mine.(queue := mine.queue[publishId - 1 := NO_PUBLISH])];
        } else {
          error := true;
        }
      }
    }
  }
}
