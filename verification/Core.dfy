/** The gateway core as an object: each call opens a transaction on the store, works through it and applies it. Every
    method is proved against the function of the same purpose on gateway states. */
module Core {
  import opened Bytes
  import opened Store
  import opened Gateway
  import opened Soundness
  import opened Operations
  import opened Unsubscribing
  import opened Visits
  import opened Ownership
  import opened LoopPass
  import P = Persistent

  /** What an operation answers. FULL and CLIENTNONEXISTENCE are negative and never equal the unsigned byte that
      apply_transaction returns, so both come out as ZERO. */
  datatype CoreResult = SUCCESS | ZERO

  function Outcome(code: nat): CoreResult { if code == 1 then SUCCESS else ZERO }

  lemma RemoveFromUnfolds(s: Sys, k: nat)
    ensures RemoveFrom(s, k) ==
            if k == 0 then s
            else RemoveFrom(RemoveOne(s, NthSubscribedTopicId(s.db, k - 1),
                                      GetTopicName(s.db, NthSubscribedTopicId(s.db, k - 1))), k - 1)
  {
    hide RemoveOne;
  }

  /** A row in use has an id and an address. */
  ghost predicate Addressed(row: Client) {
    row.status in {ACTIVE, ASLEEP, AWAKE} ==> row.address != 0 && row.id != ""
  }

  lemma NthAddressed(s: Sys, n: nat)
    requires Inv(s)
    ensures Addressed(NthClient(s.db, n))
  {
  }

  /** A CONNECT is entered in the log exactly when it is accepted. */
  lemma ConnectLogs(s: Sys, id: string, duration: nat, clean: bool, address: nat)
    requires Inv(s) && id != "" && address != 0
    ensures |Gateway.AddClient(s, id, duration, clean, address).log| ==
            |s.log| + if s.online && |id| < MAXIMUM_CLIENT_ID_LENGTH then 1 else 0
  {
    hide Inv, Gateway.AddClient, Seat, FilesFor, RowsFor, ConnectSlot;
    ConnectEffect(s, id, duration, clean, address);
  }

  /** A SUBSCRIBE is granted to a known client for a topic that resolves, unless the broker is asked and declines. */
  ghost predicate Granted(s: Sys, address: nat, topicId: nat, shortTopic: bool, accepted: bool) {
    && s.online && Ready(StartByAddress(s.db, address))
    && Resolve(StartByAddress(s.db, address), topicId, shortTopic).1.Some?
    && (AsksBroker(s, address, topicId, shortTopic) ==> accepted)
  }

  /** Entering a subscription fails no transaction. */
  lemma EnteredIsReady(d: Db, topicId: nat, shortTopic: bool, qos: nat)
    requires Ready(d) && Resolve(d, topicId, shortTopic).1.Some?
    ensures var (resolved, name, id) := Resolve(d, topicId, shortTopic);
            && Ready(resolved) && Ready(Enter(resolved, name.value, id, qos).0)
            && Enter(resolved, name.value, id, qos).1 == Enter(resolved, name.value, id, 0).1
  {
    hide GetTopicName;
    var (resolved, name, id) := Resolve(d, topicId, shortTopic);
    FirstIgnoresQos(resolved, name.value, id, qos);
  }

  /** Deleting a subscription under an id the client has none for fails the transaction. */
  lemma DeletedIsReady(d: Db, id: nat)
    ensures Ready(Store.DeleteSubscription(d, id)) <==> Ready(d) && (id == 0 || HoldsId(d, id))
  {
    var subs := Mine(d).subs;
    if i :| 0 <= i < |subs| && subs[i].topicId == id {
      assert SubscriptionWithId(id)(subs[i]);
    }
  }

  class CoreImpl {
    const persistent: P.SDPersistent
    var broker: set<string>
    ghost var log: seq<Event>

    constructor (persistent: P.SDPersistent)
      ensures this.persistent == persistent && broker == {} && log == []
    {
      this.persistent, broker, log := persistent, {}, [];
    }

    ghost function State(): Sys
      reads this, persistent
    {
      Sys(persistent.Value(), broker, persistent.mqttOnline, log)
    }

    // Clients

    /** Ends because the used slots are the first ones and topic ids are distinct, so each turn frees one slot. */
    method RemoveClientSubscriptions()
      requires Removing(State(), SubscriptionCount(persistent.Value()))
      modifies this`broker, persistent`files, persistent`counts, persistent`error
      ensures State() == RemoveSubscriptions(old(State()))
    {
      hide Removing, RemoveOne, RemoveFrom, SubscriptionCount, GetTopicName, Store.DeleteSubscription;
      var count := persistent.GetClientSubscriptionCount();
      while count > 0
        invariant count == SubscriptionCount(persistent.Value()) && Removing(State(), count)
        invariant RemoveFrom(State(), count) == RemoveSubscriptions(old(State()))
        decreases count
      {
        ghost var before := State();
        RemoveOneKeeps(before, count);
        RemoveFromUnfolds(before, count);
        RemoveLastTopic(count);
        RemovingCounts(State(), count - 1);
        count := persistent.GetClientSubscriptionCount();
      }
      RemoveFromUnfolds(State(), 0);
    }

    /** One turn of the removal. */
    method RemoveLastTopic(count: nat)
      requires count > 0
      modifies this`broker, persistent`files, persistent`counts, persistent`error
      ensures var id := NthSubscribedTopicId(old(persistent.Value()), count - 1);
              State() == RemoveOne(old(State()), id, GetTopicName(old(persistent.Value()), id))
    {
      hide Store.DeleteSubscription, GetTopicName;
      var topicId := persistent.GetNthSubscribedTopicId(count - 1);
      var topicName := persistent.GetTopicName(topicId);
      persistent.DeleteSubscription(topicId);
      if topicName.Some? {
        persistent.DecrementGlobalSubscriptionCount(topicName.value);
        var subscriptionCount := persistent.GetGlobalTopicSubscriptionCount(topicName.value);
        if subscriptionCount == 0 {
          broker := broker - {topicName.value};
        }
      }
    }

    /** Deletes the transaction's client: remove_client_subscriptions, then delete_client. */
    method DropClient(id: ClientId)
      requires Sound(persistent.Value()) && Ready(persistent.Value())
      modifies this`broker, persistent
      ensures State() == Gateway.DropClient(old(State()), id)
    {
      hide Sound, Removing, RemoveFrom, DeleteClient;
      ReadyToRemove(State());
      RemoveClientSubscriptions();
      persistent.DeleteClient(id);
    }

    method AddClient(id: string, duration: nat, clean: bool, address: nat) returns (r: CoreResult)
      requires Inv(State()) && id != "" && address != 0
      modifies this, persistent
      ensures State() == Gateway.AddClient(old(State()), id, duration, clean, address)
      ensures r == SUCCESS <==> old(persistent.mqttOnline) && |id| < MAXIMUM_CLIENT_ID_LENGTH
    {
      hide Inv, Sound, StartById, Gateway.DropClient, Store.AddClient, ResetClient, DeleteClient, RowsOk;
      ghost var s := State();
      ConnectLogs(s, id, duration, clean, address);
      if !persistent.mqttOnline {
        return ZERO;
      }
      InvSound(s);
      StartByIdKeeps(s.db, id);
      persistent.StartClientTransactionById(id);
      var exist := persistent.ClientExist();
      if exist {
        if !clean {
          persistent.ResetClient(id, address, duration * 1000);
        } else {
          DropClient(id);
          persistent.AddClient(id, address, duration * 1000);
        }
      } else {
        persistent.AddClient(id, address, duration * 1000);
      }
      var code := persistent.ApplyTransaction();
      if code == 1 {
        log := log + [Connected(persistent.entryClient.fileNumber)];
      }
      r := Outcome(code);
    }

    method RemoveWill(address: nat) returns (r: CoreResult)
      modifies persistent
      ensures State() == Gateway.RemoveWill(old(State()), address)
      ensures r == SUCCESS <==> Ready(StartByAddress(old(persistent.Value()), address))
    {
      persistent.StartClientTransaction(address);
      persistent.DeleteWill();
      var code := persistent.ApplyTransaction();
      r := Outcome(code);
    }

    method AddWillTopic(address: nat, topic: string, retain: bool, qos: nat) returns (r: CoreResult)
      modifies persistent
      ensures State() == Gateway.AddWillTopic(old(State()), address, topic, retain, qos)
      ensures var d := StartByAddress(old(persistent.Value()), address);
              r == SUCCESS <==> old(persistent.mqttOnline) && Ready(d) && d.entry.await == WILLTOPIC
    {
      if !persistent.mqttOnline {
        return ZERO;
      }
      persistent.StartClientTransaction(address);
      var await := persistent.GetClientAwaitMessageType();
      if await != WILLTOPIC {
        var _ := persistent.ApplyTransaction();
        return ZERO;
      }
      persistent.SetClientWillTopic(topic, qos, retain);
      var code := persistent.ApplyTransaction();
      r := Outcome(code);
    }

    method AddWillMsg(address: nat, message: seq<int>) returns (r: CoreResult)
      modifies persistent
      ensures State() == AddWillMessage(old(State()), address, message)
      ensures var d := StartByAddress(old(persistent.Value()), address);
              r == SUCCESS <==> old(persistent.mqttOnline) && Ready(d) && d.entry.await == WILLMSG
    {
      if !persistent.mqttOnline {
        return ZERO;
      }
      persistent.StartClientTransaction(address);
      var await := persistent.GetClientAwaitMessageType();
      if await != WILLMSG {
        var _ := persistent.ApplyTransaction();
        return ZERO;
      }
      persistent.SetClientWillMessage(message);
      var code := persistent.ApplyTransaction();
      r := Outcome(code);
    }

    method AwaitMessage(address: nat, await: Await) returns (r: CoreResult)
      modifies persistent
      ensures State() == Gateway.AwaitMessage(old(State()), address, await)
      ensures r == SUCCESS <==> Ready(StartByAddress(old(persistent.Value()), address))
    {
      persistent.StartClientTransaction(address);
      persistent.SetClientAwaitMessage(await);
      var code := persistent.ApplyTransaction();
      r := Outcome(code);
    }

    /** set_disconnected, set_asleep and set_awake. */
    method SetClientState(address: nat, status: Status) returns (r: CoreResult)
      modifies persistent
      ensures State() == SetState(old(State()), address, status)
      ensures r == SUCCESS <==> (status == ASLEEP ==> old(persistent.mqttOnline)) &&
                                Ready(StartByAddress(old(persistent.Value()), address))
    {
      if status == ASLEEP && !persistent.mqttOnline {
        return ZERO;
      }
      persistent.StartClientTransaction(address);
      persistent.SetClientState(status);
      var code := persistent.ApplyTransaction();
      r := Outcome(code);
    }

    // Topics

    method RegisterTopic(address: nat, name: TopicName) returns (r: CoreResult, newTopicId: nat)
      modifies persistent
      ensures State() == Gateway.RegisterTopic(old(State()), address, name)
      ensures r == SUCCESS <==> old(persistent.mqttOnline) && Ready(StartByAddress(old(persistent.Value()), address))
      ensures r == SUCCESS ==>
                newTopicId == AddRegistration(StartByAddress(old(persistent.Value()), address), name, 0).1
    {
      hide StartByAddress, AddRegistration;
      ghost var d := StartByAddress(persistent.Value(), address);
      RegistrationStaysReady(d, name);
      newTopicId := 0;
      if !persistent.mqttOnline {
        return ZERO, 0;
      }
      persistent.StartClientTransaction(address);
      newTopicId := persistent.AddClientRegistration(name, 0);
      var code := persistent.ApplyTransaction();
      r := Outcome(code);
    }

    /** `accepted` is what the broker would answer. */
    method AddSubscription(address: nat, topicId: nat, shortTopic: bool, qos: nat, accepted: bool)
        returns (r: CoreResult, newTopicId: nat, grantedQos: nat)
      modifies this`broker, persistent
      ensures State() == Gateway.AddSubscription(old(State()), address, topicId, shortTopic, qos, accepted)
      ensures r == SUCCESS <==> Granted(old(State()), address, topicId, shortTopic, accepted)
      ensures r == SUCCESS ==>
                && newTopicId == Resolve(StartByAddress(old(persistent.Value()), address), topicId, shortTopic).2
                && grantedQos == if qos >= 1 then 1 else 0
    {
      hide StartByAddress, GetTopicName, AddRegistration, Enter;
      ghost var open := StartByAddress(persistent.Value(), address);
      if Ready(open) && Resolve(open, topicId, shortTopic).1.Some? {
        EnteredIsReady(open, topicId, shortTopic, if qos >= 1 then 1 else 0);
      }
      newTopicId, grantedQos := 0, 0;
      if !persistent.mqttOnline {
        return ZERO, 0, 0;
      }
      persistent.StartClientTransaction(address);
      var exist := persistent.ClientExist();
      if !exist {
        var _ := persistent.ApplyTransaction();
        return ZERO, 0, 0;
      }
      grantedQos := if qos >= 1 then 1 else 0;
      var topicName;
      if shortTopic {
        topicName := persistent.GetTopicName(topicId);
        newTopicId := if topicName.Some? then topicId else 0;
      } else {
        topicName := persistent.GetPredefinedTopicName(topicId);
        if topicName.Some? {
          newTopicId := persistent.AddClientRegistration(topicName.value, 0);
        }
      }
      if topicName.None? {
        var _ := persistent.ApplyTransaction();
        return ZERO, 0, 0;
      }
      var subscribe := EnterSubscription(topicName.value, newTopicId, grantedQos);
      var code := persistent.ApplyTransaction();
      if subscribe {
        if accepted {
          broker := broker + {topicName.value};
        } else {
          persistent.DecrementGlobalSubscriptionCount(topicName.value);
          return ZERO, newTopicId, grantedQos;
        }
      }
      r := Outcome(code);
    }

    /** The new subscription and its count; says whether it is the topic's first. */
    method EnterSubscription(name: TopicName, id: nat, qos: nat) returns (subscribe: bool)
      modifies persistent`files, persistent`counts
      ensures var (entered, first) := Enter(old(persistent.Value()), name, id, qos);
              persistent.Value() == entered && subscribe == first
    {
      hide IsSubscribed, Store.AddSubscription, Incremented, CountOf;
      subscribe := false;
      var subscribed := persistent.IsSubscribed(name);
      if !subscribed {
        persistent.AddSubscription(name, id, qos);
        persistent.IncrementGlobalSubscriptionCount(name);
        var subscriptionCount := persistent.GetGlobalTopicSubscriptionCount(name);
        subscribe := subscriptionCount == 1;
      }
    }

    /** UNSUBSCRIBE by topic id. */
    method DeleteSubscription(address: nat, topicId: nat, shortTopic: bool) returns (r: CoreResult)
      modifies this`broker, persistent
      ensures State() == Unsubscribe(old(State()), address, topicId, shortTopic)
      ensures var d := StartByAddress(old(persistent.Value()), address);
              r == SUCCESS <==>
              Ready(d) && (HoldsNamed(d, NamedTopic(d, topicId, shortTopic)) || topicId == 0 || HoldsId(d, topicId))
    {
      hide StartByAddress, GetTopicName, HoldsTopic;
      persistent.StartClientTransaction(address);
      var topicName;
      if shortTopic {
        topicName := persistent.GetTopicName(topicId);
      } else {
        topicName := persistent.GetPredefinedTopicName(topicId);
      }
      r := DeleteTopic(topicName, topicId);
    }

    /** UNSUBSCRIBE by topic name. */
    method DeleteSubscriptionByName(address: nat, topicName: TopicName) returns (r: CoreResult)
      modifies this`broker, persistent
      ensures State() == UnsubscribeByName(old(State()), address, topicName)
      ensures r == SUCCESS <==> Ready(StartByAddress(old(persistent.Value()), address))
    {
      hide StartByAddress, HoldsTopic;
      persistent.StartClientTransaction(address);
      var topicId := persistent.GetTopicId(topicName);
      r := DeleteTopic(Some(topicName), topicId);
    }

    /** What both have in common after the topic has been looked up. */
    method DeleteTopic(topicName: Option<TopicName>, topicId: nat) returns (r: CoreResult)
      modifies this`broker, persistent
      ensures State() == Gateway.DeleteTopic(old(State()), old(persistent.Value()), topicName, topicId)
      ensures var d := old(persistent.Value());
              r == SUCCESS <==> Ready(d) && (HoldsNamed(d, topicName) || topicId == 0 || HoldsId(d, topicId))
    {
      hide Store.IsSubscribed, Store.DeleteSubscription, Decremented, CountOf, HoldsTopic;
      ghost var d := persistent.Value();
      DeletedIsReady(d, topicId);
      if topicName.Some? {
        SubscribedIsHeld(d, topicName.value);
      }
      var unsubscribe := false;
      var subscribed := false;
      if topicName.Some? {
        subscribed := persistent.IsSubscribed(topicName.value);
      }
      if !subscribed {
        persistent.DeleteSubscription(topicId);
        if topicName.Some? {
          persistent.DecrementGlobalSubscriptionCount(topicName.value);
          var subscriptionCount := persistent.GetGlobalTopicSubscriptionCount(topicName.value);
          unsubscribe := subscriptionCount == 0;
        }
      }
      var code := persistent.ApplyTransaction();
      if unsubscribe {
        broker := broker - {topicName.value};
      }
      r := Outcome(code);
    }

    // Messages to clients

    /** An awaited REGACK with another code is answered with ZERO. `undefined` is what the caller finds when the
        function runs off its end, as it does unless the transaction succeeds. */
    method NotifyRegackArrived(address: nat, msgId: nat, code: nat, undefined: CoreResult) returns (r: CoreResult)
      modifies this`log, persistent
      ensures State() == RegackArrived(old(State()), address, msgId, code)
      ensures var d := StartByAddress(old(persistent.Value()), address);
              r == if AwaitType(d) == REGACK && AwaitId(d) == msgId && code !in {0, 1} then ZERO
                   else if ApplyCode(d) == 1 then SUCCESS else undefined
    {
      hide StartByAddress;
      persistent.StartClientTransaction(address);
      var await := persistent.GetClientAwaitMessageType();
      var awaited := persistent.GetClientAwaitMsgId();
      if await == REGACK && awaited == msgId {
        if code == 0 || code == 1 {
          log := log + [RegackTaken(persistent.entryClient.fileNumber)];
          persistent.SetClientAwaitMessage(PINGREQ);
        } else {
          var _ := persistent.ApplyTransaction();
          return ZERO;
        }
      }
      var result := persistent.ApplyTransaction();
      r := if result == 1 then SUCCESS else undefined;
    }

    method HandleReceiveMqttPublishForClient(topic: string, data: seq<int>, address: nat, retain: bool)
      modifies persistent
      ensures State() == ReceivePublish(old(State()), address, topic, data, retain)
    {
      hide StartByAddress, AddPublish;
      persistent.StartClientTransaction(address);
      var status := persistent.GetClientStatus();
      var subscribed := persistent.IsSubscribed(topic);
      if status in {ACTIVE, ASLEEP, AWAKE} && subscribed {
        var qos := persistent.GetSubscriptionQos(topic);
        var topicId := persistent.GetSubscriptionTopicId(topic);
        persistent.AddNewClientPublish(Shortened(data), topicId, retain, qos);
      }
      var _ := persistent.ApplyTransaction();
    }

    method HandleClientPublishes(status: Status, address: nat, garbage: bool)
      modifies this`log, persistent
      ensures State() == HandlePublishes(old(State()), status, address, garbage)
    {
      hide StartByAddress, SendNext, HasPublishes;
      if status != AWAKE && status != ACTIVE {
        return;
      }
      persistent.StartClientTransaction(address);
      var await := persistent.GetClientAwaitMessageType();
      var some := persistent.HasClientPublishes();
      if await == PINGREQ && some {
        HasPublishesIsReady(persistent.Value());
        SendNextFrom(old(State()), persistent.Value(), address, garbage);
        SendNextPublish(address, garbage);
      } else {
        var _ := persistent.ApplyTransaction();
      }
    }

    /** The part of handle_client_publishes that has a message to send. */
    method SendNextPublish(address: nat, garbage: bool)
      requires Ready(persistent.Value())
      modifies this`log, persistent
      ensures var d := old(persistent.Value());
              State() == SendNext(old(State()), d, address, NextPublish(Mine(d).queue), garbage)
    {
      hide SetAwait, SetAwaitId, RemovePublish, SetPublishMsgId, GetTopicName, IsTopicKnown, NextPublish;
      var next := persistent.GetNextPublish();
      var known := persistent.IsTopicKnown(next.topicId, garbage);
      ghost var slot := persistent.entryClient.fileNumber;
      var awaited := persistent.GetClientAwaitMsgId();
      var msgId := NextMsgId(awaited);
      if !known {
        var topicName := persistent.GetTopicName(next.topicId);
        if topicName.None? {
          var _ := persistent.ApplyTransaction();
          return;
        }
        persistent.SetClientAwaitMsgId(msgId);
        persistent.SetClientAwaitMessage(REGACK);
        Send(RegisterSent(slot, address, next.topicId, msgId, topicName.value));
      } else if next.qos == 0 {
        persistent.RemovePublishByPublishId(next.publishId);
        Send(PublishSent(slot, address, 0, next));
      } else if next.qos == 1 {
        persistent.SetClientAwaitMsgId(msgId);
        persistent.SetClientAwaitMessage(PUBACK);
        persistent.SetPublishMsgId(next.publishId, msgId);
        Send(PublishSent(slot, address, msgId, next));
      } else {
        var _ := persistent.ApplyTransaction();
      }
    }

    /** Applies the transaction and, if it succeeds, sends. */
    method Send(ghost e: Event)
      modifies this`log, persistent`transactionStarted, persistent`error, persistent`notInClientRegistry
      ensures State() == Finish(old(State()), old(persistent.Value()), e)
    {
      var code := persistent.ApplyTransaction();
      if code == 1 {
        log := log + [e];
      }
    }

    /** An awake client without messages falls asleep with a PINGRESP. */
    method AnswerPing(status: Status, address: nat)
      modifies this`log, persistent
      ensures State() == Gateway.AnswerPing(old(State()), status, address)
    {
      hide StartByAddress, HasPublishes, SetStatus;
      persistent.StartClientTransaction(address);
      ghost var slot := persistent.entryClient.fileNumber;
      var some := persistent.HasClientPublishes();
      if status == AWAKE && !some {
        persistent.SetClientState(ASLEEP);
        Send(PingRespSent(slot, address));
      } else {
        var _ := persistent.ApplyTransaction();
      }
    }

    method HandleTimeout(row: Client, elapsed: nat)
      requires Inv(State()) && Addressed(row)
      modifies this, persistent
      ensures State() == Gateway.HandleTimeout(old(State()), row, elapsed)
    {
      hide Inv, StartByAddress, Store.SetTimeout, SetStatus, Gateway.DropClient, Sound, Tolerance, RowAt;
      if row.status !in {ACTIVE, ASLEEP, AWAKE} {
        return;
      }
      ghost var timed, lost := TimeoutStates(State(), row, elapsed);
      persistent.StartClientTransaction(row.address);
      var timeout := (row.timeout + elapsed) % 0x1_0000_0000;
      persistent.SetTimeout(timeout);
      if timeout > Tolerance(row.duration) {
        persistent.SetClientState(LOST);
        var will := persistent.GetClientWill();
        if will.Some? {
          log := log + [WillPublished(persistent.entryClient.fileNumber, will.value)];
          DropClient(row.id);
        }
      }
      var _ := persistent.ApplyTransaction();
    }

    // The loop

    /** What the loop does for one client. */
    method ServeClient(ghost n: nat, row: Client, heartbeat: Option<nat>, garbage: bool)
      requires Inv(State()) && row == NthClient(persistent.Value(), n)
      modifies this, persistent
      ensures State() == Visit(old(State()), n, heartbeat, garbage)
    {
      hide Inv, HandlePublishes, Gateway.AnswerPing, Gateway.HandleTimeout, RowsOk;
      NthAddressed(State(), n);
      HandlePublishesKeeps(State(), row.status, row.address, garbage);
      HandleClientPublishes(row.status, row.address, garbage);
      AnswerPingKeeps(State(), row.status, row.address);
      AnswerPing(row.status, row.address);
      if heartbeat.Some? {
        HandleTimeout(row, heartbeat.value);
      }
    }

    /** One pass with both sides online. It ends because visits add no rows. */
    method Loop(heartbeat: Option<nat>, garbage: bool)
      requires Inv(State())
      modifies this, persistent
      ensures State() == Pass(old(State()), heartbeat, garbage).0
    {
      hide Inv, Visit, PassFrom;
      var lastAddress := persistent.GetLastClientAddress();
      if lastAddress == 0 {
        return;
      }
      var row := persistent.GetNthClient(0);
      var i := 1;
      while true
        invariant i >= 1 && Inv(State()) && row == NthClient(persistent.Value(), i - 1)
        invariant PassFrom(State(), i - 1, lastAddress, heartbeat, garbage).0 ==
                  Pass(old(State()), heartbeat, garbage).0
        decreases |persistent.registry| - i
      {
        ghost var before := State();
        VisitKeepsSize(before, i - 1, heartbeat, garbage);
        PassUnfolds(before, i - 1, lastAddress, heartbeat, garbage);
        ServeClient(i - 1, row, heartbeat, garbage);
        row := persistent.GetNthClient(i);
        i := i + 1;
        if row.address == 0 {
          return;
        }
        if row.address == lastAddress {
          break;
        }
      }
      ServeClient(i - 1, row, heartbeat, garbage);
    }
  }

  lemma RegistrationStaysReady(d: Db, name: TopicName)
    ensures Ready(AddRegistration(d, name, 0).0) <==> Ready(d)
  {
  }

  lemma HasPublishesIsReady(d: Db)
    requires HasPublishes(d)
    ensures Ready(d)
  {
  }

  lemma SendNextFrom(s: Sys, d: Db, address: nat, garbage: bool)
    ensures SendNext(s.(db := d), d, address, NextPublish(Mine(d).queue), garbage) ==
            SendNext(s, d, address, NextPublish(Mine(d).queue), garbage)
  {
    hide SetAwait, SetAwaitId, RemovePublish, SetPublishMsgId, GetTopicName, IsTopicKnown, NextPublish;
  }
}
