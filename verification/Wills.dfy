/** The will handshake, and what it does to the client that completes it. */
module Wills {
  import opened Bytes
  import opened Store
  import opened Gateway
  import opened Soundness
  import opened Operations
  import opened Unsubscribing
  import opened Conservation
  import opened Visits
  import opened Ownership
  import opened Stalls
  import InFlight
  import opened Handlers

  /** A live client, found under its address. */
  ghost predicate Present(s: Sys, n: nat, address: nat) {
    && Inv(s) && Owned(s.db) && s.online && address != 0
    && n < |s.db.registry| && s.db.registry[n].id != "" && s.db.registry[n].address == address
  }

  lemma AwaitEffect(s: Sys, n: nat, address: nat, await: Await)
    requires Present(s, n, address) && await in {WILLTOPIC, WILLMSG, PUBREL}
    ensures var t := AwaitMessage(s, address, await);
            && Present(t, n, address) && t.db.files == s.db.files
            && t.db.registry == s.db.registry[n := s.db.registry[n].(await := await)]
  {
    hide Inv, Owned, Sound, DistinctAddresses, SetAwait;
    OwnedDistinct(s.db);
    OwnRow(s, n);
    InFlight.AwaitWritten(StartByAddress(s.db, address), await);
    AwaitKeeps(StartByAddress(s.db, address), await);
    Stays(s, AwaitStep(address, await));
  }

  lemma Stays(s: Sys, step: Step)
    requires Inv(s) && Owned(s.db) && Legal(step) && !step.Connect? && !Unsubscribes(step)
    ensures Inv(Do(s, step)) && Owned(Do(s, step).db)
  {
    hide Inv, Owned, Do;
    StepKeepsIff(s, step);
    OwnedStep(s, step);
  }

  lemma WillTopicEffect(s: Sys, n: nat, address: nat, topic: string, retain: bool, qos: nat)
    requires Present(s, n, address) && s.db.registry[n].await == WILLTOPIC && |topic| < MAXIMUM_TOPIC_NAME_LENGTH
    ensures var t := AddWillTopic(s, address, topic, retain, qos);
            && Present(t, n, address) && t.db.registry == s.db.registry
            && FilesAt(t.db.files, n).will.Some?
            && FilesAt(t.db.files, n).will.value.(message := []) == Will(topic, [], qos, retain)
  {
    hide Inv, Owned, Sound, DistinctAddresses;
    OwnedDistinct(s.db);
    OwnRow(s, n);
    Stays(s, WillTopicStep(address, topic, retain, qos));
  }

  lemma WillMessageEffect(s: Sys, n: nat, address: nat, message: seq<int>)
    requires Present(s, n, address) && s.db.registry[n].await == WILLMSG && FilesAt(s.db.files, n).will.Some?
    ensures var t := AddWillMessage(s, address, message);
            && Present(t, n, address) && t.db.registry == s.db.registry
            && FilesAt(t.db.files, n).will == Some(FilesAt(s.db.files, n).will.value.(message := message))
  {
    hide Inv, Owned, Sound, DistinctAddresses;
    OwnedDistinct(s.db);
    OwnRow(s, n);
    Stays(s, WillMessageStep(address, message));
  }

  lemma ConnectPresent(s: Sys, id: string, duration: nat, clean: bool, address: nat)
    requires Inv(s) && Owned(s.db) && id != "" && address != 0 && Accepts(s, id)
    requires OwnAddress(s, Connect(id, duration, clean, address))
    ensures var t := Gateway.AddClient(s, id, duration, clean, address);
            var n := ConnectSlot(s.db.registry, id, clean);
            && Present(t, n, address) && t.db.registry[n] == NewClient(s.db.registry, id, duration, clean, address)
  {
    hide Inv, Owned, Gateway.AddClient, ConnectSlot, FilesFor;
    ConnectEffect(s, id, duration, clean, address);
    ConnectKeeps(s, id, duration, clean, address);
    ConnectOwned(s, id, duration, clean, address);
    Online(s, id, duration, clean, address);
  }

  lemma Online(s: Sys, id: string, duration: nat, clean: bool, address: nat)
    ensures Gateway.AddClient(s, id, duration, clean, address).online == s.online
  {
    hide StartById, Store.AddClient, ResetClient, DeleteClient, RemoveFrom;
    OnlineRemoved(s.(db := StartById(s.db, id)), SubscriptionCount(StartById(s.db, id)));
  }

  lemma {:induction false} OnlineRemoved(s: Sys, k: nat)
    ensures RemoveFrom(s, k).online == s.online
    decreases k
  {
    hide DeleteSubscription, GetTopicName, NthSubscribedTopicId;
    if k > 0 {
      var id := NthSubscribedTopicId(s.db, k - 1);
      OnlineRemoved(RemoveOne(s, id, GetTopicName(s.db, id)), k - 1);
    }
  }

  /** An empty WILLTOPIC takes the will away, and nothing else: a client that then times out is kept as LOST. */
  lemma WillIsRemoved(s: Sys, n: nat, address: nat)
    requires Present(s, n, address)
    ensures var t := RemoveWill(s, address);
            && Present(t, n, address) && t.db.registry == s.db.registry && t.log == s.log
            && FilesAt(t.db.files, n) == FilesAt(s.db.files, n).(will := None)
            && forall m: nat | m != n :: FilesAt(t.db.files, m) == FilesAt(s.db.files, m)
  {
    hide Inv, Owned, Sound, DistinctAddresses;
    OwnedDistinct(s.db);
    OwnRow(s, n);
    Stays(s, RemoveWillStep(address));
  }

  /** The steps of CONNECT with the will flag, WILLTOPIC and WILLMSG, as the handlers order them. */
  function Handshake(id: string, duration: nat, clean: bool, address: nat,
                     topic: string, retain: bool, qos: nat, message: seq<int>): seq<Step>
  {
    [Connect(id, duration, clean, address), AwaitStep(address, WILLTOPIC), WillTopicStep(address, topic, retain, qos),
     AwaitStep(address, WILLMSG), WillMessageStep(address, message)]
  }

  lemma RunSnoc(s: Sys, steps: seq<Step>, step: Step)
    ensures Run(s, steps + [step]) == Do(Run(s, steps), step)
  {
    hide Do;
    assert (steps + [step])[..|steps|] == steps;
  }

  lemma HandshakeRun(s: Sys, id: string, duration: nat, clean: bool, address: nat,
                     topic: string, retain: bool, qos: nat, message: seq<int>)
    ensures Run(s, Handshake(id, duration, clean, address, topic, retain, qos, message)) ==
            AddWillMessage(AwaitMessage(AddWillTopic(AwaitMessage(Gateway.AddClient(s, id, duration, clean, address),
              address, WILLTOPIC), address, topic, retain, qos), address, WILLMSG), address, message)
  {
    hide Gateway.AddClient, AwaitMessage, AddWillTopic, AddWillMessage, Run;
    var steps := Handshake(id, duration, clean, address, topic, retain, qos, message);
    RunOne(s, steps[0]);
    RunSnoc(s, steps[..1], steps[1]);
    RunSnoc(s, steps[..2], steps[2]);
    RunSnoc(s, steps[..3], steps[3]);
    RunSnoc(s, steps[..4], steps[4]);
    assert steps[..1] == [steps[0]] && steps[..1] + [steps[1]] == steps[..2] && steps[..2] + [steps[2]] == steps[..3];
    assert steps[..3] + [steps[3]] == steps[..4] && steps[..4] + [steps[4]] == steps;
  }

  /** A client that connects with a will has its will stored exactly as sent, whatever an earlier session left; but its
      await type stays that of the handshake, so it counts as stalled. */
  lemma WillIsStored(s: Sys, id: string, duration: nat, clean: bool, address: nat,
                     topic: string, retain: bool, qos: nat, message: seq<int>)
    requires Inv(s) && Owned(s.db) && id != "" && address != 0 && Accepts(s, id)
    requires OwnAddress(s, Connect(id, duration, clean, address)) && |topic| < MAXIMUM_TOPIC_NAME_LENGTH
    ensures var t := Run(s, Handshake(id, duration, clean, address, topic, retain, qos, message));
            var n := ConnectSlot(s.db.registry, id, clean);
            && Present(t, n, address)
            && t.db.registry[n] == NewClient(s.db.registry, id, duration, clean, address).(await := WILLMSG)
            && FilesAt(t.db.files, n).will == Some(Will(topic, message, qos, retain))
            && Stalled(t.db, n)
  {
    hide Gateway.AddClient, AwaitMessage, AddWillTopic, AddWillMessage, Run, Present, ConnectSlot, Handshake;
    HandshakeRun(s, id, duration, clean, address, topic, retain, qos, message);
    var n := ConnectSlot(s.db.registry, id, clean);
    ConnectPresent(s, id, duration, clean, address);
    var connected := Gateway.AddClient(s, id, duration, clean, address);
    InRange(connected, n, address);
    AwaitEffect(connected, n, address, WILLTOPIC);
    var awaiting := AwaitMessage(connected, address, WILLTOPIC);
    InRange(awaiting, n, address);
    WillTopicEffect(awaiting, n, address, topic, retain, qos);
    var named := AddWillTopic(awaiting, address, topic, retain, qos);
    InRange(named, n, address);
    AwaitEffect(named, n, address, WILLMSG);
    var waiting := AwaitMessage(named, address, WILLMSG);
    InRange(waiting, n, address);
    WillMessageEffect(waiting, n, address, message);
  }

  lemma InRange(s: Sys, n: nat, address: nat)
    requires Present(s, n, address)
    ensures n < |s.db.registry|
  {
  }

  /** The handshake as the handlers see it: the three messages in order are answered WILLTOPICREQ, WILLMSGREQ and an
      accepting CONNACK, they come to the steps of the handshake, and the will is stored as sent. */
  method ConnectWithWill(handler: MessageHandler, id: string, duration: nat, clean: bool, address: nat,
                         topic: string, retain: bool, qos: nat, message: seq<int>)
      returns (toConnect: Answer, toTopic: Answer, toMessage: Answer)
    requires Inv(handler.core.State()) && Owned(handler.core.State().db) && id != "" && address != 0
    requires Accepts(handler.core.State(), id) && |topic| < MAXIMUM_TOPIC_NAME_LENGTH
    requires OwnAddress(handler.core.State(), Connect(id, duration, clean, address))
    requires topic != "" || qos != 0 || retain
    modifies handler.core, handler.core.persistent
    ensures toConnect == WillTopicReq && toTopic == WillMsgReq && toMessage == Connack(0)
    ensures handler.core.State() ==
            Run(old(handler.core.State()), Handshake(id, duration, clean, address, topic, retain, qos, message))
    ensures var n := ConnectSlot(old(handler.core.State().db.registry), id, clean);
            FilesAt(handler.core.State().db.files, n).will == Some(Will(topic, message, qos, retain))
  {
    hide Inv, Owned, Gateway.AddClient, AwaitMessage, AddWillTopic, AddWillMessage, Run, ConnectSlot, Handshake, Known,
      NewClient, Stalled, Present;
    ghost var s := handler.core.State();
    HandshakeRun(s, id, duration, clean, address, topic, retain, qos, message);
    WillIsStored(s, id, duration, clean, address, topic, retain, qos, message);
    HandshakeAwaits(s, id, duration, clean, address, topic, retain, qos);
    RunTwo(s, Connect(id, duration, clean, address), AwaitStep(address, WILLTOPIC));
    toConnect := handler.HandleConnect(address, id, duration, true, clean);
    ghost var t := handler.core.State();
    RunTwo(t, WillTopicStep(address, topic, retain, qos), AwaitStep(address, WILLMSG));
    toTopic := handler.HandleWillTopic(address, topic, retain, qos);
    RunOne(handler.core.State(), WillMessageStep(address, message));
    toMessage := handler.HandleWillMsg(address, message);
  }

  /** The gateway stays reachable through the handshake, and awaits each message in turn. */
  lemma HandshakeAwaits(s: Sys, id: string, duration: nat, clean: bool, address: nat,
                        topic: string, retain: bool, qos: nat)
    requires Inv(s) && Owned(s.db) && id != "" && address != 0 && Accepts(s, id)
    requires OwnAddress(s, Connect(id, duration, clean, address)) && |topic| < MAXIMUM_TOPIC_NAME_LENGTH
    ensures var awaiting := AwaitMessage(Gateway.AddClient(s, id, duration, clean, address), address, WILLTOPIC);
            && Inv(awaiting) && awaiting.online
            && AwaitMessage(AddWillTopic(awaiting, address, topic, retain, qos), address, WILLMSG).online
  {
    hide Inv, Owned, Gateway.AddClient, ConnectSlot, Sound, DistinctAddresses;
    var n := ConnectSlot(s.db.registry, id, clean);
    ConnectPresent(s, id, duration, clean, address);
    AwaitEffect(Gateway.AddClient(s, id, duration, clean, address), n, address, WILLTOPIC);
  }

  /** A WILLTOPIC or WILLMSG that is not awaited, or comes without the broker, changes nothing. */
  lemma UnawaitedIsIgnored(s: Sys, address: nat, topic: string, retain: bool, qos: nat, message: seq<int>)
    requires Inv(s) && address != 0
    ensures !s.online || !AwaitsOf(s, address, WILLTOPIC) ==>
              SameTables(s.db, AddWillTopic(s, address, topic, retain, qos).db)
    ensures !s.online || !AwaitsOf(s, address, WILLMSG) ==> SameTables(s.db, AddWillMessage(s, address, message).db)
    ensures |topic| >= 255 ==> SameTables(s.db, AddWillTopic(s, address, topic, retain, qos).db)
  {
  }

  /** So a client with a will is sent no queued message, over any good run, until it connects again. */
  lemma {:induction false} WillClientIsNotServed(s: Sys, id: string, duration: nat, clean: bool, address: nat,
                                 topic: string, retain: bool, qos: nat, message: seq<int>, later: seq<Step>)
    requires Inv(s) && Owned(s.db) && id != "" && address != 0 && Accepts(s, id)
    requires OwnAddress(s, Connect(id, duration, clean, address)) && |topic| < MAXIMUM_TOPIC_NAME_LENGTH
    requires var t := Run(s, Handshake(id, duration, clean, address, topic, retain, qos, message));
             && OwnedRun(t, later)
             && NotConnected(t.log, Run(t, later).log, ConnectSlot(s.db.registry, id, clean))
    ensures var t := Run(s, Handshake(id, duration, clean, address, topic, retain, qos, message));
            NothingFor(t.log, Run(t, later).log, ConnectSlot(s.db.registry, id, clean))
  {
    hide Run, Handshake, ConnectSlot, OwnedRun, NotConnected, NothingFor, Inv, Owned;
    WillIsStored(s, id, duration, clean, address, topic, retain, qos, message);
    StalledUntilConnect(Run(s, Handshake(id, duration, clean, address, topic, retain, qos, message)), later,
                        ConnectSlot(s.db.registry, id, clean));
  }
}
