/** The MQTT-SN message handler: which core operations a received message leads to, in which order, and what is
    answered. Every handler amounts to a run of at most two legal steps. */
module Handlers {
  import opened Bytes
  import opened Store
  import opened Gateway
  import opened Soundness
  import opened Operations
  import opened Ownership
  import opened Core
  import opened Subscriptions

  const ACCEPTED: nat := 0
  const REJECTED_NOT_SUPPORTED: nat := 3

  /** What the handler sends back. */
  datatype Answer =
    | Connack(code: nat)
    | WillTopicReq
    | WillMsgReq
    | Regack(topicId: nat, msgId: nat, code: nat)
    | Suback(qos: nat, topicId: nat, msgId: nat, code: nat)
    | Unsuback(msgId: nat)
    | Disconnect
    | DisconnectFor(duration: nat)
    | Nothing

  /** A CONNECT is accepted when the broker is reachable and the id is short enough. */
  predicate Accepts(s: Sys, id: string) { s.online && |id| < 24 }

  function ConnectSteps(s: Sys, address: nat, id: string, duration: nat, will: bool, clean: bool): seq<Step> {
    [Connect(id, duration, clean, address)] + (if Accepts(s, id) && will then [AwaitStep(address, WILLTOPIC)] else [])
  }

  /** The client of this address is found. */
  ghost predicate Known(s: Sys, address: nat) { Ready(StartByAddress(s.db, address)) }

  ghost predicate AwaitsOf(s: Sys, address: nat, await: Await) {
    Known(s, address) && StartByAddress(s.db, address).entry.await == await
  }

  ghost function WillTopicSteps(s: Sys, address: nat, topic: string, retain: bool, qos: nat): seq<Step> {
    if topic == "" && qos == 0 && !retain then [RemoveWillStep(address)]
    else
      [WillTopicStep(address, topic, retain, qos)] +
      (if s.online && AwaitsOf(s, address, WILLTOPIC) then [AwaitStep(address, WILLMSG)] else [])
  }

  ghost function SubscribeSteps(s: Sys, address: nat, name: TopicName, qos: nat, accepted: bool): seq<Step> {
    [Register(address, name)] +
    (if s.online && Known(s, address)
     then [Subscribe(address, AddRegistration(StartByAddress(s.db, address), name, 0).1, true, qos, accepted)] else [])
  }

  /** From a client with an id and an address, the steps of every handler are legal. */
  lemma HandlersAreLegal(s: Sys, address: nat, id: string, duration: nat, name: TopicName, retain: bool, qos: nat,
                         flag: bool, clean: bool, topic: string)
    requires id != "" && address != 0 && duration <= 65535
    ensures forall step | step in ConnectSteps(s, address, id, duration, flag, clean) :: Legal(step)
    ensures forall step | step in WillTopicSteps(s, address, topic, retain, qos) :: Legal(step)
    ensures forall step | step in SubscribeSteps(s, address, name, qos, flag) :: Legal(step)
    ensures forall message :: Legal(WillMessageStep(address, message))
    ensures forall topicId :: Legal(Subscribe(address, topicId, flag, qos, clean))
    ensures forall topicId :: Legal(UnsubscribeStep(address, topicId, flag))
    ensures Legal(UnsubscribeNameStep(address, name))
    ensures Legal(Register(address, name)) && forall msgId :: Legal(Step.Regack(address, msgId, qos))
    ensures forall status | status in {AWAKE, ASLEEP, DISCONNECTED} :: Legal(SetStateStep(address, status))
  {
  }

  lemma RunOne(s: Sys, step: Step)
    ensures Run(s, [step]) == Do(s, step)
  {
    hide Do;
    assert [step][..0] == [];
  }

  lemma RunTwo(s: Sys, first: Step, second: Step)
    ensures Run(s, [first, second]) == Do(Do(s, first), second)
    ensures [first] + [second] == [first, second] && [first] + [] == [first]
  {
    hide Do;
    RunOne(s, first);
    assert [first, second][..1] == [first];
  }

  /** After an accepted CONNECT its address belongs to a client. */
  lemma ConnectedIsKnown(s: Sys, id: string, duration: nat, clean: bool, address: nat)
    requires Inv(s) && id != "" && address != 0 && Accepts(s, id)
    ensures var t := Gateway.AddClient(s, id, duration, clean, address); Inv(t) && Known(t, address)
  {
    hide Inv, Gateway.AddClient, ConnectSlot, FilesFor;
    ConnectEffect(s, id, duration, clean, address);
    ConnectKeeps(s, id, duration, clean, address);
    var t := Gateway.AddClient(s, id, duration, clean, address);
    FoundByAddress(t, ConnectSlot(s.db.registry, id, clean), address);
  }

  lemma FoundByAddress(s: Sys, k: nat, address: nat)
    requires Inv(s) && k < |s.db.registry| && s.db.registry[k].address == address
    ensures Known(s, address)
  {
    assert ByAddress(address)(s.db.registry[k]);
  }

  ghost function Last(subs: seq<Subscription>): Subscription {
    if subs == [] then NO_SUBSCRIPTION else subs[|subs| - 1]
  }

  lemma GrantsMeans(s: Sys, address: nat, topicId: nat, shortTopic: bool, accepted: bool)
    requires Grants(s, address, topicId, shortTopic, accepted)
    ensures Meant(s, StartByAddress(s.db, address).entry.fileNumber, topicId, shortTopic).Some?
  {
  }

  /** Registering a name makes its id mean it, and leaves the client's subscriptions and all counts alone. */
  lemma RegisteredMeans(s: Sys, address: nat, name: TopicName)
    requires Inv(s) && s.online && address != 0 && Known(s, address)
    ensures var d, t := StartByAddress(s.db, address), RegisterTopic(s, address, name);
            var n, id := d.entry.fileNumber, AddRegistration(d, name, 0).1;
            && Inv(t) && t.online && Known(t, address) && StartByAddress(t.db, address).entry == d.entry
            && Meant(t, n, id, true) == Some(name) && t.db.counts == s.db.counts
            && FilesAt(t.db.files, n).subs == FilesAt(s.db.files, n).subs
  {
    hide Sound, AddRegistration;
    var d, t := StartByAddress(s.db, address), RegisterTopic(s, address, name);
    Opened(s, address);
    AddRegistrationKeeps(d, name, 0);
    RegisterKeeps(s, address, name);
  }

  /** SUBSCRIBE by name, after the name has been registered. */
  lemma NamedOutcome(s: Sys, address: nat, name: TopicName, qos: nat, accepted: bool)
    requires Inv(s) && s.online && address != 0 && Known(s, address)
    ensures var d, t := StartByAddress(s.db, address), RegisterTopic(s, address, name);
            var n, id := d.entry.fileNumber, AddRegistration(d, name, 0).1;
            var u := Gateway.AddSubscription(t, address, id, true, qos, accepted);
            && (Granted(t, address, id, true, accepted) <==> (Asked(s, n, name) ==> accepted))
            && (Granted(t, address, id, true, accepted) ==>
                  && Resolve(StartByAddress(t.db, address), id, true).2 == id
                  && Holding(u, n, name, id)
                  && (name == "" || HoldsTopic(FilesAt(s.db.files, n).subs, name) ||
                      Last(FilesAt(u.db.files, n).subs) == Subscription(id, if qos >= 1 then 1 else 0, name)))
  {
    hide Inv, AddRegistration, RegisterTopic, Gateway.AddSubscription, StartByAddress, Resolve, Granted, Meant, Holding,
      HoldsTopic, CountOf;
    var d, t := StartByAddress(s.db, address), RegisterTopic(s, address, name);
    var id := AddRegistration(d, name, 0).1;
    RegisteredMeans(s, address, name);
    GrantedIff(t, address, id, true, accepted);
    if Granted(t, address, id, true, accepted) {
      GrantedIsHeld(t, address, id, true, qos, accepted);
    }
  }

  class MessageHandler {
    const core: CoreImpl

    constructor (core: CoreImpl)
      ensures this.core == core
    {
      this.core := core;
    }

    method HandleConnect(address: nat, id: string, duration: nat, will: bool, clean: bool) returns (answer: Answer)
      requires Inv(core.State()) && id != "" && address != 0
      modifies core, core.persistent
      ensures core.State() ==
              Run(old(core.State()), ConnectSteps(old(core.State()), address, id, duration, will, clean))
      ensures answer == if !Accepts(old(core.State()), id) then Connack(3)
                        else if will then WillTopicReq else Connack(0)
      ensures answer == WillTopicReq ==> AwaitsOf(core.State(), address, WILLTOPIC)
    {
      hide Inv, Gateway.AddClient, Gateway.AwaitMessage, StartByAddress;
      ghost var s := core.State();
      RunOne(s, Connect(id, duration, clean, address));
      RunTwo(s, Connect(id, duration, clean, address), AwaitStep(address, WILLTOPIC));
      if Accepts(s, id) {
        ConnectedIsKnown(s, id, duration, clean, address);
        Awaiting(Gateway.AddClient(s, id, duration, clean, address), address, WILLTOPIC);
      }
      var addResult := core.AddClient(id, duration, clean, address);
      if addResult != SUCCESS {
        return Connack(REJECTED_NOT_SUPPORTED);
      }
      if will {
        var awaitResult := core.AwaitMessage(address, WILLTOPIC);
        if awaitResult != SUCCESS {
          return Connack(REJECTED_NOT_SUPPORTED);
        }
        return WillTopicReq;
      }
      return Connack(ACCEPTED);
    }

    /** An empty WILLTOPIC removes the will and is not answered. */
    method HandleWillTopic(address: nat, topic: string, retain: bool, qos: nat) returns (answer: Answer)
      requires Inv(core.State()) && address != 0
      modifies core, core.persistent
      ensures core.State() == Run(old(core.State()), WillTopicSteps(old(core.State()), address, topic, retain, qos))
      ensures answer == if topic == "" && qos == 0 && !retain then Nothing
                        else if old(core.State()).online && AwaitsOf(old(core.State()), address, WILLTOPIC)
                        then WillMsgReq else Connack(3)
      ensures answer == WillMsgReq ==> AwaitsOf(core.State(), address, WILLMSG)
    {
      hide Inv, Gateway.AddWillTopic, Gateway.RemoveWill, Gateway.AwaitMessage, StartByAddress, Run, WillTopicSteps;
      WillTopicOutcome(core.State(), address, topic, retain, qos);
      if topic == "" && qos == 0 && !retain {
        var _ := core.RemoveWill(address);
        return Nothing;
      }
      var topicResult := core.AddWillTopic(address, topic, retain, qos);
      if topicResult != SUCCESS {
        return Connack(REJECTED_NOT_SUPPORTED);
      }
      var awaitResult := core.AwaitMessage(address, WILLMSG);
      if awaitResult != SUCCESS {
        return Connack(REJECTED_NOT_SUPPORTED);
      }
      return WillMsgReq;
    }

    method HandleWillMsg(address: nat, message: seq<int>) returns (answer: Answer)
      modifies core.persistent
      ensures core.State() == Run(old(core.State()), [WillMessageStep(address, message)])
      ensures answer == Connack(if old(core.State()).online && AwaitsOf(old(core.State()), address, WILLMSG) then 0
                                else 3)
    {
      hide AddWillMessage, StartByAddress;
      RunOne(core.State(), WillMessageStep(address, message));
      var result := core.AddWillMsg(address, message);
      return Connack(if result == SUCCESS then ACCEPTED else REJECTED_NOT_SUPPORTED);
    }

    method HandleRegister(address: nat, msgId: nat, name: TopicName) returns (answer: Answer)
      modifies core.persistent
      ensures core.State() == Run(old(core.State()), [Register(address, name)])
      ensures var s := old(core.State());
              answer == if s.online && Known(s, address)
                        then Answer.Regack(AddRegistration(StartByAddress(s.db, address), name, 0).1, msgId, 0)
                        else Answer.Regack(0, msgId, 3)
    {
      hide RegisterTopic, StartByAddress, AddRegistration;
      RunOne(core.State(), Register(address, name));
      var registerResult, topicId := core.RegisterTopic(address, name);
      return if registerResult != SUCCESS then Answer.Regack(0, msgId, REJECTED_NOT_SUPPORTED)
             else Answer.Regack(topicId, msgId, ACCEPTED);
    }

    /** SUBSCRIBE by topic id: a short topic, as the source calls ids it has given out, or a predefined one. */
    method HandleSubscribe(address: nat, topicId: nat, msgId: nat, shortTopic: bool, qos: nat, accepted: bool)
        returns (answer: Answer)
      modifies core, core.persistent
      requires Inv(core.State()) && address != 0
      ensures core.State() == Run(old(core.State()), [Subscribe(address, topicId, shortTopic, qos, accepted)])
      ensures answer.Suback? && answer.msgId == msgId
      ensures answer.code == 0 <==> Grants(old(core.State()), address, topicId, shortTopic, accepted)
      ensures answer.code != 0 ==> answer == Suback(0, 0, msgId, 3)
      ensures answer.code == 0 ==>
                var s := old(core.State());
                var n := StartByAddress(s.db, address).entry.fileNumber;
                var name := Meant(s, n, topicId, shortTopic).value;
                && Holding(core.State(), n, name, answer.topicId) && (shortTopic ==> answer.topicId == topicId)
                && answer.qos == (if qos >= 1 then 1 else 0)
                && (name == "" || HoldsTopic(FilesAt(s.db.files, n).subs, name) ||
                    Last(FilesAt(core.State().db.files, n).subs) == Subscription(answer.topicId, answer.qos, name))
    {
      hide Inv, Gateway.AddSubscription, StartByAddress, Resolve, Granted, Grants, Meant, HoldsTopic, Holding;
      GrantedIff(core.State(), address, topicId, shortTopic, accepted);
      if Grants(core.State(), address, topicId, shortTopic, accepted) {
        GrantedIsHeld(core.State(), address, topicId, shortTopic, qos, accepted);
        GrantsMeans(core.State(), address, topicId, shortTopic, accepted);
      }
      RunOne(core.State(), Subscribe(address, topicId, shortTopic, qos, accepted));
      var result, newTopicId, grantedQos := core.AddSubscription(address, topicId, shortTopic, qos, accepted);
      return if result != SUCCESS then Suback(0, 0, msgId, REJECTED_NOT_SUPPORTED)
             else Suback(grantedQos, newTopicId, msgId, ACCEPTED);
    }

    /** SUBSCRIBE by topic name: the name is registered first. */
    method HandleSubscribeByName(address: nat, name: TopicName, msgId: nat, qos: nat, accepted: bool)
        returns (answer: Answer)
      requires Inv(core.State()) && address != 0
      modifies core, core.persistent
      ensures core.State() == Run(old(core.State()), SubscribeSteps(old(core.State()), address, name, qos, accepted))
      ensures answer.Suback? && answer.msgId == msgId
      ensures var s := old(core.State());
              var n := StartByAddress(s.db, address).entry.fileNumber;
              answer.code == 0 <==> s.online && Known(s, address) && (Asked(s, n, name) ==> accepted)
      ensures var s := old(core.State());
              answer.code != 0 ==>
                answer == Suback(if s.online && Known(s, address) then 0 else qos, 0, msgId, 3)
      ensures answer.code == 0 ==>
                var n := StartByAddress(old(core.State()).db, address).entry.fileNumber;
                && Holding(core.State(), n, name, answer.topicId) && answer.qos == (if qos >= 1 then 1 else 0)
                && (name == "" || HoldsTopic(FilesAt(old(core.State()).db.files, n).subs, name) ||
                    Last(FilesAt(core.State().db.files, n).subs) == Subscription(answer.topicId, answer.qos, name))
    {
      hide Inv, Gateway.AddSubscription, RegisterTopic, StartByAddress, GetTopicName, AddRegistration, Granted, Resolve,
        Grants, Meant, HoldsTopic, Holding, Asked;
      ghost var s := core.State();
      if s.online && Known(s, address) {
        NamedOutcome(s, address, name, qos, accepted);
      }
      ghost var id := AddRegistration(StartByAddress(s.db, address), name, 0).1;
      RunOne(s, Register(address, name));
      RunTwo(s, Register(address, name), Subscribe(address, id, true, qos, accepted));
      var registerResult, newTopicId := core.RegisterTopic(address, name);
      if registerResult != SUCCESS {
        return Suback(qos, 0, msgId, REJECTED_NOT_SUPPORTED);
      }
      var result, subscribedId, grantedQos := core.AddSubscription(address, newTopicId, true, qos, accepted);
      return if result != SUCCESS then Suback(0, 0, msgId, REJECTED_NOT_SUPPORTED)
             else Suback(grantedQos, subscribedId, msgId, ACCEPTED);
    }

    /** UNSUBSCRIBE by topic id is acknowledged whatever has been done; the code for a missing client never arrives. */
    method HandleUnsubscribe(address: nat, topicId: nat, msgId: nat, shortTopic: bool) returns (answer: Answer)
      modifies core, core.persistent
      ensures core.State() == Run(old(core.State()), [UnsubscribeStep(address, topicId, shortTopic)])
      ensures answer == Unsuback(msgId)
    {
      hide Unsubscribe, StartByAddress;
      RunOne(core.State(), UnsubscribeStep(address, topicId, shortTopic));
      var _ := core.DeleteSubscription(address, topicId, shortTopic);
      return Unsuback(msgId);
    }

    /** ... and by topic name. */
    method HandleUnsubscribeByName(address: nat, topicName: TopicName, msgId: nat) returns (answer: Answer)
      modifies core, core.persistent
      ensures core.State() == Run(old(core.State()), [UnsubscribeNameStep(address, topicName)])
      ensures answer == Unsuback(msgId)
    {
      hide UnsubscribeByName, StartByAddress;
      RunOne(core.State(), UnsubscribeNameStep(address, topicName));
      var _ := core.DeleteSubscriptionByName(address, topicName);
      return Unsuback(msgId);
    }

    method HandleRegack(address: nat, msgId: nat, code: nat, undefined: CoreResult) returns (answer: Answer)
      requires Inv(core.State()) && address != 0
      modifies core, core.persistent
      ensures core.State() == Run(old(core.State()), [Step.Regack(address, msgId, code)])
      ensures var s := old(core.State());
              var d := StartByAddress(s.db, address);
              answer == if AwaitsOf(s, address, REGACK) && d.entry.awaitId == msgId then
                          if code in {0, 1} then Nothing else Disconnect
                        else if Known(s, address) || undefined == SUCCESS then Nothing else Disconnect
    {
      hide Inv, RegackArrived, StartByAddress;
      Opened(core.State(), address);
      RunOne(core.State(), Step.Regack(address, msgId, code));
      var result := core.NotifyRegackArrived(address, msgId, code, undefined);
      return if result != SUCCESS then Disconnect else Nothing;
    }

    /** PINGREQ with a client id. */
    method HandlePingreq(address: nat) returns (answer: Answer)
      modifies core.persistent
      ensures core.State() == Run(old(core.State()), [SetStateStep(address, AWAKE)])
      ensures answer == if Known(old(core.State()), address) then Nothing else Disconnect
    {
      hide SetState, StartByAddress;
      RunOne(core.State(), SetStateStep(address, AWAKE));
      var result := core.SetClientState(address, AWAKE);
      return if result != SUCCESS then Disconnect else Nothing;
    }

    method HandleDisconnect(address: nat, duration: Option<nat>) returns (answer: Answer)
      modifies core.persistent
      ensures core.State() ==
              Run(old(core.State()), [SetStateStep(address, if duration.Some? then ASLEEP else DISCONNECTED)])
      ensures var s := old(core.State());
              answer == if duration.None? then if Known(s, address) then Disconnect else Nothing
                        else if s.online && Known(s, address) then DisconnectFor(duration.value) else Disconnect
    {
      hide SetState, StartByAddress;
      var status := if duration.Some? then ASLEEP else DISCONNECTED;
      RunOne(core.State(), SetStateStep(address, status));
      var result := core.SetClientState(address, status);
      if duration.None? {
        return if result != SUCCESS then Nothing else Disconnect;
      }
      return if result != SUCCESS then Disconnect else DisconnectFor(duration.value);
    }
  }

  /** A known client awaits what it has been set to await. */
  lemma Awaiting(s: Sys, address: nat, await: Await)
    requires Inv(s) && address != 0 && Known(s, address)
    ensures AwaitsOf(Gateway.AwaitMessage(s, address, await), address, await)
  {
  }

  /** What the steps of a WILLTOPIC come to. */
  lemma WillTopicOutcome(s: Sys, address: nat, topic: string, retain: bool, qos: nat)
    requires Inv(s) && address != 0
    ensures var t := Gateway.AddWillTopic(s, address, topic, retain, qos);
            var u := Run(s, WillTopicSteps(s, address, topic, retain, qos));
            if topic == "" && qos == 0 && !retain then u == Gateway.RemoveWill(s, address)
            else if s.online && AwaitsOf(s, address, WILLTOPIC) then
              && u == Gateway.AwaitMessage(t, address, WILLMSG) && Known(t, address)
              && AwaitsOf(u, address, WILLMSG)
            else u == t
  {
    hide Inv, Gateway.AddWillTopic, Gateway.RemoveWill, Gateway.AwaitMessage, StartByAddress, Run;
    RunOne(s, RemoveWillStep(address));
    RunOne(s, WillTopicStep(address, topic, retain, qos));
    RunTwo(s, WillTopicStep(address, topic, retain, qos), AwaitStep(address, WILLMSG));
    WillTopicKnown(s, address, topic, retain, qos);
    if Known(s, address) {
      Awaiting(Gateway.AddWillTopic(s, address, topic, retain, qos), address, WILLMSG);
    }
  }

  /** Storing a will topic loses no client. */
  lemma WillTopicKnown(s: Sys, address: nat, topic: string, retain: bool, qos: nat)
    requires Inv(s) && address != 0
    ensures Known(s, address) ==> Known(Gateway.AddWillTopic(s, address, topic, retain, qos), address)
    ensures Inv(Gateway.AddWillTopic(s, address, topic, retain, qos))
  {
    WillStepsKeep(s, WillTopicStep(address, topic, retain, qos));
  }
}
