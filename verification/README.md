# MQTT-SN gateway: a Dafny model

This project models the two parts of the gateway that carry its guarantees.

**The gateway core.** Many MQTT-SN clients share one broker connection. The store (`Persistent.dfy`, specified by
`Store.dfy`) keeps files of records that are scanned and rewritten in place: the client registry, and per client its
registrations, subscriptions, will and publish queue; MQTT.SUB counts the clients of each topic. The core (`Core.dfy`,
specified by `Gateway.dfy`) brackets each operation in a transaction, and the message handler (`Handlers.dfy`) orders
the operations. Objects with mutable fields are classes; every method is proved equal to a function on values, and the
lemmas are about whole runs of those functions: `Conservation`, `Removal`, `Unsubscribing`, `Ownership`,
`Registrations`, `LoopPass`, `Timeouts`, `InFlight`, `Stalls`, `MessageIds`, `Registers`, `Wills`, `LostClients`,
`Queue`, `Draining`, `Delivery`, `Receipts`, `Interleaving`, `Subscriptions`. `Soundness`, `Operations`, `Scan`,
`StoreCases`, `Effects` and `Visits` hold what they share.

**The MQTT 3.1.1 wire layer** under it: `RemainingLength`, `Packet`, `Publish`, `Subscribe`, `Unsubscribe`, `Suback` and
`Connect` with their round trips and, in `WireFormat`, their bytes, the blocking and the resumable packet reader
(`PacketReader`, `NonBlockingReader`), the topic matcher (`TopicMatching`) and the inbound QoS 2 table (`InboundQos2`).
Buffers are arrays written through an advancing pointer.

`dafny verify dfyconfig.toml` checks everything.

## Hypotheses

The code relies on these and does not enforce them; `Gateway.Legal`, `Ownership.OwnAddress` and types state them.

- Client ids are not empty; addresses are not zero; where it is said, live clients have addresses of their own.
- Deleting a file deletes it. The Linux fake builds another path (`src/Implementation/SDLinuxFake.cpp:42-50`).
- PERSISTENT_DEBUG is 1, as the source has it (`src/Implementation/SDPersistentImpl.h:14`); without it `is_subscribed`
  never answers yes.
- A broker call returns before anything else happens, and an unsubscribe at the broker succeeds.
- Tables have fewer than 65535 slots, so slot numbers, ids and counts do not wrap; topic names have fewer than 255
  characters (the code's own check lets 255 through where names are registered).
- A good run is a sequence of legal steps, in any order, subscribes that the broker turns down and UNSUBSCRIBEs
  included, in which no UNSUBSCRIBE takes away the subscription to another topic (`Unsubscribing.MakesHole`). Only the
  results about right counts ask for more (`Conservation.CountedRun`).

## What the code does differently from its comments

- The message in flight never ends for QoS 1: PUBACK leaves the await type, and so do a completed will and a PUBREL, so
  such a client is served again only after a CONNECT (`Stalls.StalledUntilConnect`, `Wills.WillClientIsNotServed`).
- `is_topic_known` answers yes for every registered topic, and an unregistered one has no name, so the gateway never
  sends a REGISTER of its own (`Registers.RegistersNone`).
- The publish queue keeps no order of arrival: a message takes the last free slot, and the last used slot is sent first.
  Appended messages go out in reverse, messages that refill a drained queue in order (`Queue.EnqueuedOrder`).
- UNSUBSCRIBE tests whether the client is subscribed the wrong way round. A holder stays; from a client without the
  topic it ends the gateway's own subscription, or by name takes one from the count, whoever else holds the topic
  (`Unsubscribing.UnsubscribeKeepsIff`). With a predefined id it can leave a hole before another subscription, and then
  a clean CONNECT of that client never returns (`Unsubscribing.RemovalEndsIffLast`).
- A hole in the registry ends a loop pass early, so clients behind it get no heartbeat (`LoopPass.PassServes`).
- `apply_transaction` returns -1 as 255, so callers that compare with CLIENTNONEXISTENCE never see it and answer ZERO.
- `set_client_await_msg_id` stores nothing: every QoS 1 PUBLISH goes out under message id 1 while 0 is remembered. So
  would a REGISTER, and a REGACK that echoes it would not be taken (`MessageIds`).
- `MQTTPacket_readnb` never reports a packet without a body, such as PINGRESP, drops packets of type 0, and fails after
  four polls in the length phase even when they were empty (`NonBlockingReader.CompletesExactlyWhen`).
- The CONNECT reader accepts an empty user name if there is a password (`Connect.LoginAccepted`).

## Model

| member | source | states |
|---|---|---|
| Conservation.CountsAreConserved | src/CoreImpl.cpp:239-295 | After every run from an empty gateway in which the broker accepts first subscribes and an UNSUBSCRIBE is for a topic that its client or nobody holds (connects clean or not, registrations, wills, visits, time-outs in any order), each topic's count in MQTT.SUB is the number of clients whose subscription table holds it, and the broker subscriptions are exactly the topics with a positive count. |
| Conservation.CountsNeverExceed | src/CoreImpl.cpp:585-821 | Over every good run, refused subscribes and UNSUBSCRIBEs included, no count exceeds the number of its topic's holders, and the gateway is subscribed at the broker to topics with a positive count only. |
| Conservation.ClientsCanBeRemoved | src/CoreImpl.cpp:1209-1249 | After every good run the removal loop ends for every client. |
| Conservation.StepKeepsIff | src/CoreImpl.cpp:585-821 | Each core operation keeps the tables in order (rows, registrations, subscription prefix with distinct ids, rows of MQTT.SUB) if and only if it is not an UNSUBSCRIBE that takes another topic's subscription away. |
| Conservation.CountsKeptIff | src/CoreImpl.cpp:585-821 | Apart from that: counts never come to exceed holders, and the broker never to have a topic without a count; right counts stay right if and only if the operation is neither a first SUBSCRIBE that is turned down nor an UNSUBSCRIBE by name of a topic that only others hold; the broker stays in step if and only if it is no UNSUBSCRIBE of such a topic by id. |
| Conservation.StepBalancesIff | src/CoreImpl.cpp:585-821 | So each operation keeps tables, counts and broker right if and only if it is none of these four. |
| Conservation.SubscribeKeepsIffAccepted | src/CoreImpl.cpp:675-732 | add_subscription keeps right counts right exactly when the broker, if it is asked at all, accepts: the refused branch decrements the count and leaves the client's entry; it keeps tables and broker in step in any case. |
| Conservation.RefusedBreaks | src/CoreImpl.cpp:723-732 | Taking back the count of a topic's only holder, as the refused branch does, leaves a holder that no count mentions. |
| Conservation.RefusalExample | src/CoreImpl.cpp:723-732 | The concrete run: connect, register and a refused subscribe, a good run, end with a held topic of count 0. |
| Conservation.RunKeeps | src/CoreImpl.cpp:239-295 | The tables are in order after every good run from any state in which they are. |
| Operations.ConnectKeeps | src/CoreImpl.cpp:239-295 | add_client in all its cases (new, reset, removed and added again, rejected) keeps the tables in order. |
| Operations.DropClientKeeps | src/CoreImpl.cpp:266-270 | Removing a client empties and deletes its files, touches no other client's, frees its row, and lowers the count of exactly the topics it held by one, if there is one, unsubscribing at the broker exactly those that are then at zero. |
| Operations.DropClientTallies | src/CoreImpl.cpp:1209-1249 | So a removal keeps right whatever is right about counts and broker. |
| Ownership.CountsAreSubscribers | src/CoreImpl.cpp:585-746 | With distinct addresses and right counts, every count is the number of live registry rows subscribed to the topic. |
| Ownership.ConnectEffect | src/CoreImpl.cpp:239-295 | The complete effect of CONNECT on registry, files and log: refused, reset in place with the old files, or seated in the first free row. |
| Ownership.OwnedRunKeeps | src/CoreImpl.cpp:239-295 | Over every good run with distinct addresses, files belong to rows in use and addresses stay distinct. |
| Ownership.VisitOnly | src/CoreImpl.cpp:102-142 | A visit of the loop changes its own row and files only; the client keeps its id, address and duration or is gone with its files. |
| Soundness.RemoveFromKeeps | src/CoreImpl.cpp:1209-1249 | The removal empties the client's table, lowers the count of each of its topics once, if there is one, and unsubscribes at the broker exactly those that are then at zero, whatever the counts were. |
| Soundness.RemoveOneKeeps | src/CoreImpl.cpp:1223-1247 | One turn deletes the slot it has read by index: that slot is the first one with its topic id, and its registered name is the subscribed one. |
| Soundness.EnterKeeps | src/CoreImpl.cpp:675-692 | A new subscription makes the client a holder and raises that topic's count alone; an existing one changes nothing; it is a first one exactly when the count was zero. |
| Soundness.IncrementCounts | src/Implementation/SDPersistentImpl.h:802-890 | Incrementing raises the count of that topic by one and no other, whether the row is found, a hole is reused or the file grows. |
| Soundness.DecrementCounts | src/Implementation/SDPersistentImpl.h:1211-1279 | Decrementing lowers the count of that topic, if it has one, by one and no other; a row that reaches zero becomes a hole. |
| Removal.EndsExactlyWhenOrdered | src/CoreImpl.cpp:1216-1248 | With distinct topic ids, the removal loop ends if and only if the used subscription slots are the first ones. |
| Removal.HoleNeverEnds | src/CoreImpl.cpp:1216-1248 | With a hole before a subscription, no number of turns empties the table. |
| Removal.OrderedEnds | src/CoreImpl.cpp:1216-1248 | In order, as many turns as there are subscriptions empty it. |
| Removal.RemovalIsTurns | src/CoreImpl.cpp:1216-1248 | With the tables in order, as after every good run, the removal is this loop, run to its end. |
| Unsubscribing.UnsubscribeKeepsIff | src/CoreImpl.cpp:748-821 | UNSUBSCRIBE keeps tables, counts and broker right if and only if the client holds the topic, in which case it stays, or no client does and, for a predefined topic, the client has no subscription under that id; by registered id and by name the condition is the first or that no client holds the topic. |
| Unsubscribing.DeleteKeepsIff | src/CoreImpl.cpp:757-767 | delete_subscription leaves the tables in order if and only if it does not take another topic's subscription away. |
| Unsubscribing.OnlyPredefinedMakeHoles | src/CoreImpl.cpp:749-758 | Only a predefined id can do that: a registered id names the topic held under it, and by name the id is 0. |
| Unsubscribing.DeleteTallies | src/CoreImpl.cpp:760-786 | What it does for the counts and for the broker, each as an equivalence. |
| Unsubscribing.UnsubscribeTouches | src/CoreImpl.cpp:748-821 | Whatever it does, rows and log are untouched, and of the files all but its client's subscriptions. |
| Unsubscribing.HolderStays | src/CoreImpl.cpp:760-767 | A client that holds the topic keeps its subscription, and nothing changes: the test is the wrong way round. |
| Unsubscribing.OnlyBrokerChanges | src/CoreImpl.cpp:760-786 | For a topic the client does not hold, under an id it has no subscription for, no table changes and the gateway unsubscribes at the broker, whoever else holds the topic and whether or not the client is known. |
| Unsubscribing.OnlyCountChanges | src/CoreImpl.cpp:789-821 | By name the id is always 0, so no subscription is deleted and the topic loses one from its count, and at zero its broker subscription. |
| Unsubscribing.AnotherIsTaken | src/CoreImpl.cpp:757-763 | A predefined id that is also the id of one of the client's subscriptions takes that other topic's subscription away and leaves its count. |
| Unsubscribing.RemovalEndsIffLast | src/CoreImpl.cpp:1216-1248 | After that, the removal loop of a clean CONNECT of this client ends if and only if the subscription taken away was its last. |
| Conservation.StrangerExample | src/CoreImpl.cpp:789-821 | The concrete run: one subscriber, and an UNSUBSCRIBE by name from an unknown address, leave a holder with no count and no broker subscription. |
| InFlight.OneMessageInFlight | src/CoreImpl.cpp:1378-1460 | After every good run each registry slot has at most one unanswered REGISTER or QoS 1 PUBLISH since its last CONNECT, and none while its await type is PINGREQ. |
| InFlight.RegackEffect | src/CoreImpl.cpp:939-984 | A REGACK is taken exactly when it is awaited under that message id with code 0 or 1; it makes the client idle, and any other changes nothing. |
| Registers.RegistersNone | src/CoreImpl.cpp:1395-1415 | Over every good run, damaged queues included, the gateway sends no REGISTER and no client is awaited to answer one: an id that is not known has no name. |
| Registers.RegackIsNotTaken | src/CoreImpl.cpp:939-984 | So in any state of such a run no REGACK is taken or changes a table. |
| Stalls.StalledUntilConnect | src/CoreImpl.cpp:986-1022 | A slot that awaits a will, a PUBREL or a PUBACK is sent no message and no REGISTER over any good run until a CONNECT ends in it; no acknowledgement makes it idle again. |
| MessageIds.IdsFromFresh | src/Implementation/SDPersistentImpl.h:1601-1615 | Over every good run from an empty gateway no row remembers a message id, every QoS 1 PUBLISH goes out under id 1, and so would a REGISTER; QoS 0 goes out under id 0. |
| MessageIds.RegackTakenIff | src/CoreImpl.cpp:939-949 | So a REGACK is taken if and only if one is awaited, its message id is 0 and its code is 0 or 1; any other changes neither registry nor log. |
| MessageIds.BusyUntilConnect | src/CoreImpl.cpp:1400-1410 | With clients that answer under the ids they were sent, a slot that awaits anything, a REGACK included, stays so and is sent nothing over any good run until a CONNECT ends in it. |
| MessageIds.EchoIsNotTaken | src/CoreImpl.cpp:942-943 | A REGACK that echoes the id of a REGISTER would not be taken, in any state in which one has been sent; none is in runs from an empty gateway (`Registers.RegistersNone`). |
| Wills.ConnectWithWill | src/MqttSnMessageHandler.cpp:140-247 | The three handlers called in order answer WILLTOPICREQ, WILLMSGREQ and an accepting CONNACK, what they do is the run of the handshake's five steps, and the will is stored as sent. |
| Wills.WillIsStored | src/MqttSnMessageHandler.cpp:140-204 | After those five steps the will is stored exactly as sent, whatever an earlier session left, the row is that of the new client, and the client is left awaiting WILLMSG. |
| Wills.UnawaitedIsIgnored | src/CoreImpl.cpp:309-356 | A WILLTOPIC or WILLMSG that is not awaited or comes without the broker, and a topic of 255 characters, change no table. |
| LostClients.WillIsPublished | src/CoreImpl.cpp:145-236 | From handshake to end: a client that has sent a will and is then silent for more than 10 percent above its duration (over a minute) or 50 percent (otherwise) has exactly that will published at that heartbeat, once and not before, and is gone with its files. |
| LostClients.WillsArePublished | src/CoreImpl.cpp:205-233 | Over every good run the wills published for a slot are exactly those its clients had stored when they were found lost: none is left out, none comes twice. |
| LostClients.StaysUnpublished | src/CoreImpl.cpp:172-233 | While a client stays and does not change it, its will stays stored and unpublished over any good run. |
| LostClients.StepPublishes | src/CoreImpl.cpp:145-236 | Step by step: a will is published for a slot if and only if the step is a heartbeat there, of a client with a will, whose sum is beyond the tolerance; and it is the stored one. |
| LostClients.VisitPublishes | src/CoreImpl.cpp:205-233 | At that heartbeat row and files go; at any other visit to a live client row and will stay. |
| Wills.WillClientIsNotServed | src/MqttSnMessageHandler.cpp:231-247 | So a client with a will is sent nothing from its queue, over any good run, until it connects again. |
| Wills.WillIsRemoved | src/CoreImpl.cpp:297-307 | An empty WILLTOPIC takes the will away and changes nothing else. |
| Subscriptions.GrantedIsHeld | src/CoreImpl.cpp:585-746 | A granted SUBSCRIBE leaves its client holding the topic it named, the predefined one under that id or the one the client had registered under it, under the answered id, which names that topic and is the requested one if registered; a new subscription has QoS 1 if at least 1 was asked for, else 0; the gateway is subscribed to the topic at the broker if it was asked, or if counts and broker are right. |
| Subscriptions.GrantedIff | src/CoreImpl.cpp:585-746 | It is granted if and only if a known client names a topic that exists, the broker is reachable and, if the broker is asked, it accepts. |
| Subscriptions.AskedIff | src/CoreImpl.cpp:675-706 | The broker is asked exactly for a topic the client does not hold and that has no count. |
| Subscriptions.ResolveMeans | src/CoreImpl.cpp:645-660 | The lookup: a registered id is looked up among the client's own registrations, a predefined one in TOPICS.PRE, and the id that goes on names that topic. |
| Subscriptions.ReceivedIsQueued | src/CoreImpl.cpp:1146-1170 | A message from the broker is queued exactly for a connected or sleeping subscriber of its topic: once, with its retain flag and its payload cut to its length modulo 256, under the id that names the topic to the client; no other client's files are touched. |
| Subscriptions.ListenerIsServed | src/CoreImpl.cpp:1378-1447 | An idle active QoS 0 subscriber with an empty queue is sent the broker's message at its next visit, exactly once, under the topic id it knows, and unaltered if and only if it has at most 255 bytes. |
| Registrations.IdsAndNames | src/Implementation/SDPersistentImpl.h:1125-1162 | A client's ids are 1 to k, and get_topic_name and add_client_registration are inverse to each other on them. |
| Registrations.RegisterNames | src/CoreImpl.cpp:371-434 | The id register_topic returns names the topic afterwards. |
| Registrations.NamesAreStable | src/Implementation/SDPersistentImpl.h:1283-1365 | An id keeps its name, and registering the name again returns the same id, over every good run until the client's files are deleted. |
| LoopPass.PassServes | src/CoreImpl.cpp:84-142 | One pass visits the rows from the first one up to the first hole, each once and in order; it reaches every client if and only if there is no hole between row 0 and the last client, even though visits delete clients. |
| LoopPass.PassFromVisits | src/CoreImpl.cpp:102-142 | The same from any row on, by induction over the rows still ahead. |
| LoopPass.EmptyPass | src/CoreImpl.cpp:86-98 | Without any client nothing is visited. |
| LoopPass.VisitKeepsSize | src/CoreImpl.cpp:102-142 | A visit adds and removes no row, which bounds the pass. |
| Queue.EnqueuedKeeps | src/Implementation/SDPersistentImpl.h:1932-1991 | A received message is added to the bag once, under its slot's id, and the slots stay in order. |
| Queue.EnqueuedOrder | src/Implementation/SDPersistentImpl.h:1932-1991 | A received message is sent after exactly the messages in the slots above its own, and the others keep their order; it is sent first if and only if it takes the last slot or is appended. |
| Queue.AppendedAreReversed | src/Implementation/SDPersistentImpl.h:1994-2058 | Two messages appended to an empty queue are sent in reverse. |
| Queue.ReusedAreInOrder | src/Implementation/SDPersistentImpl.h:1994-2058 | Two messages that fill the two slots of a drained queue are sent in the order they came. |
| Queue.RemovedTakesNext | src/Implementation/SDPersistentImpl.h:2148-2182 | The message get_next_publish returns sits in the slot its id names, and removing it takes that message alone and leaves the order of the others. |
| Queue.SentStaysQueued | src/Implementation/SDPersistentImpl.h:2061-2095 | Noting a message id leaves the message queued and moves nothing. |
| Draining.QueuesStayOk | src/CoreImpl.cpp:1378-1447 | Over every good run without PUBACK, each queue slot is zeroed or carries its position, every queued message is on a topic its client has registered, and the gateway never sends a REGISTER of its own. |
| Draining.SendNextEffect | src/CoreImpl.cpp:1378-1447 | What an idle client with a queued message is sent: a QoS 0 message leaves the queue, a QoS 1 message stays and a PUBACK is awaited, a QoS 2 message is not sent. |
| Draining.RegisteredIsKnown | src/Implementation/SDPersistentImpl.h:1374-1434 | A registered topic id is always known, because a registration is entered as known and set_topic_known is empty. |
| Receipts.MessagesAreConserved | src/CoreImpl.cpp:1146-1170 | Over every run without PUBACK from an empty gateway, whatever client it is and whatever else happens: the messages a client has received since its files were created are exactly those it has been sent with QoS 0 together with those queued for it; none is lost, doubled or changed. |
| Receipts.ReceivedIsSentOrQueued | src/CoreImpl.cpp:1378-1460 | The same from any state whose queues are in order, with what is queued there. |
| Receipts.StepSettles | src/CoreImpl.cpp:103-139 | Step by step: what was queued and what arrives is sent or queued afterwards. |
| Interleaving.EveryPingrespMeansEmpty | src/CoreImpl.cpp:105-110 | Every PINGRESP in the log of a run was sent by one of its visits to an awake client, found its queue empty and left it asleep (section 6.14 of MQTT-SN v1.2). |
| Interleaving.RunDelivers | src/CoreImpl.cpp:103-139 | Over any good run whose other steps are about other clients, with tolerated heartbeats or none: v visits send an idle client exactly the first v of its queued QoS 0 messages, each once and in order; once all are out an awake client gets exactly one PINGRESP and is asleep, and further visits send nothing. |
| Interleaving.SleeperIsServed | src/MqttSnMessageHandler.cpp:680-685 | The cycle of a sleeping client in such a run: PINGREQ wakes it, enough visits send everything queued exactly once and then one PINGRESP, and its row is as it was but for the timeout. |
| Interleaving.StepElsewhere | src/CoreImpl.cpp:239-1170 | A step about other clients leaves a client's row, its files and what it is sent as they are. |
| Delivery.StateEffect | src/CoreImpl.cpp:823-917 | A state operation sets the status of its client's row and changes nothing else. |
| Effects.OfflineIsIgnored | src/CoreImpl.cpp:239-746 | Without the broker, CONNECT, wills, REGISTER, SUBSCRIBE and falling asleep change nothing. |
| Delivery.OneVisit | src/CoreImpl.cpp:103-113 | One visit sends exactly the next message, and the PINGRESP exactly with the last one. |
| Delivery.PingrespIff | src/CoreImpl.cpp:104-113 | After the sending part of a visit the PINGRESP goes out if and only if the client was awake and its queue is empty. |
| Delivery.PingrespMeansEmpty | src/CoreImpl.cpp:105-110 | Every PINGRESP a single step sends is sent by a visit to an awake client, finds its queue empty and leaves it asleep. |
| Timeouts.BeatDecides | src/CoreImpl.cpp:145-236 | At one heartbeat the client stays if and only if ten times the sum is at most eleven times its duration (above 60000 ms) or twice the sum at most three times its duration (otherwise); then the sum is stored, otherwise the client is LOST or deleted. |
| Timeouts.TimeoutIsSilence | src/CoreImpl.cpp:151-160 | While a client stays, its stored timeout is the sum of the heartbeats since the start, without wrap-around. |
| Timeouts.LeavesExactlyWhenExceeded | src/CoreImpl.cpp:151-173 | It leaves at the first heartbeat whose sum exceeds 11/10 of a duration above a minute, or 3/2 of a shorter one, and never earlier (section 7.2 of MQTT-SN v1.2). |
| Timeouts.ConnectedTolerated | src/CoreImpl.cpp:264-273 | A CONNECT starts the count at zero with the duration in milliseconds. |
| Visits.HandleTimeoutAt | src/CoreImpl.cpp:145-236 | The complete effect of handle_timeout on row, files and log: untouched, the sum stored, LOST without a will, and with one its will published and row and files deleted. |
| Visits.ToleranceIs | src/CoreImpl.cpp:153-159 | The computed tolerance bounds exactly the sums that are at most 11/10 or 3/2 of the duration. |
| Visits.OwnRow | src/Implementation/SDPersistentImpl.h:197-259 | With distinct addresses, the transaction by a row's address is about that row. |
| Persistent.SDPersistent.StartClientTransactionById | src/Implementation/SDPersistentImpl.h:128-195 | Finds the first row with the id; an open transaction or a long id sets the error flag. |
| Persistent.SDPersistent.StartClientTransaction | src/Implementation/SDPersistentImpl.h:197-259 | Finds the first row with the address. |
| Persistent.SDPersistent.ApplyTransaction | src/Implementation/SDPersistentImpl.h:261-294 | Closes the transaction; the answer is 1, 0 on an error, and 255 for a missing client, since -1 is returned as an unsigned byte. |
| Persistent.SDPersistent.ResetClient | src/Implementation/SDPersistentImpl.h:303-357 | The client's row as new, in place; an error if it is another client's transaction. |
| Persistent.SDPersistent.DeleteClient | src/Implementation/SDPersistentImpl.h:359-433 | Refused while subscriptions are left; deletes the files by the transaction's number and the row by the id. |
| Persistent.SDPersistent.AddClient | src/Implementation/SDPersistentImpl.h:451-548 | The new row goes to the first free place; its files are created but not emptied. |
| Persistent.SDPersistent.IncrementGlobalSubscriptionCount | src/Implementation/SDPersistentImpl.h:802-890 | One scan finds the topic's row or remembers the last hole. |
| Persistent.SDPersistent.IsSubscribed | src/Implementation/SDPersistentImpl.h:892-939 | The name is in the client's table. |
| Persistent.SDPersistent.AddSubscription | src/Implementation/SDPersistentImpl.h:941-1023 | Stored in the last hole or at the end, unless the same entry is there. |
| Persistent.SDPersistent.GetClientSubscriptionCount | src/Implementation/SDPersistentImpl.h:1053-1092 | The number of slots with a topic id. |
| Persistent.SDPersistent.GetNthSubscribedTopicId | src/Implementation/SDPersistentImpl.h:1094-1123 | The topic id in a slot, 0 for a hole or past the end. |
| Persistent.SDPersistent.GetTopicName | src/Implementation/SDPersistentImpl.h:1125-1162 | The name registered under an id. |
| Persistent.SDPersistent.DeleteSubscription | src/Implementation/SDPersistentImpl.h:1164-1209 | Zeroes the first slot with the id; an error if there is none. |
| Persistent.SDPersistent.DecrementGlobalSubscriptionCount | src/Implementation/SDPersistentImpl.h:1211-1279 | One less; a row that reaches zero is zeroed. |
| Persistent.SDPersistent.AddClientRegistration | src/Implementation/SDPersistentImpl.h:1283-1365 | The id of the name if registered, else the number of slots plus one, stored in the last hole or at the end. |
| Persistent.SDPersistent.IsTopicKnown | src/Implementation/SDPersistentImpl.h:1374-1434 | The known flag; id 0 sets the error flag; an unregistered id yields whatever the missing return leaves. |
| Persistent.SDPersistent.GetSubscriptionQos | src/Implementation/SDPersistentImpl.h:1483-1532 | The QoS of the first slot with the name, -1 if there is none, 0 outside a transaction. |
| Persistent.SDPersistent.GetSubscriptionTopicId | src/Implementation/SDPersistentImpl.h:1534-1585 | Its topic id, 0 if there is none. |
| Persistent.SDPersistent.SetClientAwaitMsgId | src/Implementation/SDPersistentImpl.h:1601-1615 | Rewrites the row as it was: the assignment is a comparison. |
| Persistent.SDPersistent.GetLastClientAddress | src/Implementation/SDPersistentImpl.h:1619-1639 | The address of the last row in use. |
| Persistent.SDPersistent.SetClientWillTopic | src/Implementation/SDPersistentImpl.h:1752-1790 | Topic, QoS and retain of the will; the message is kept; a long topic is ignored. |
| Persistent.SDPersistent.SetClientWillMessage | src/Implementation/SDPersistentImpl.h:1792-1823 | The message of the will; topic and flags are kept. |
| Persistent.SDPersistent.GetGlobalTopicSubscriptionCount | src/Implementation/SDPersistentImpl.h:1839-1890 | The topic's count, 0 if it has no row. |
| Persistent.SDPersistent.HasClientPublishes | src/Implementation/SDPersistentImpl.h:1894-1929 | Some slot of the queue is used. |
| Persistent.SDPersistent.AddNewClientPublish | src/Implementation/SDPersistentImpl.h:1932-1991 | Stored in the last hole or at the end, with its position plus one as its id. |
| Persistent.SDPersistent.GetNextPublish | src/Implementation/SDPersistentImpl.h:1994-2058 | The message in the last used slot. |
| Persistent.SDPersistent.SetPublishMsgId | src/Implementation/SDPersistentImpl.h:2061-2095 | Noted in the slot the publish id names; a slot with another id is an error. |
| Persistent.SDPersistent.RemovePublishByPublishId | src/Implementation/SDPersistentImpl.h:2148-2182 | Zeroes the slot the publish id names; a slot with another id is an error. |
| StoreCases.Starts | src/Implementation/SDPersistentImpl.h:197-259 | A second start is an error; otherwise the first row of the address is opened and no table touched. |
| StoreCases.Answers | src/Implementation/SDPersistentImpl.h:261-294 | The codes of apply_transaction, for every state. |
| StoreCases.Errors | src/Implementation/SDPersistentImpl.h:303-2182 | What is an error and changes nothing: resetting another client, deleting one with subscriptions, adding a present one or an id of 24 characters, deleting a topic id without a subscription, a publish id in another's slot, topic id 0. |
| StoreCases.Queries | src/Implementation/SDPersistentImpl.h:1483-1585 | The subscription queries, in terms of the records: the first slot of the name, or -1 and 0. |
| StoreCases.KnownAnswers | src/Implementation/SDPersistentImpl.h:1374-1434 | A registered id is known if its record says so; for any other the missing return decides. |
| StoreCases.FillsRegistration | src/Implementation/SDPersistentImpl.h:1283-1365 | A new name gets the number of slots plus one as its id, as known, in the last hole or, without one, at the end. |
| StoreCases.FillsSubscription | src/Implementation/SDPersistentImpl.h:941-1023 | A new subscription likewise fills the last hole or goes to the end. |
| StoreCases.FillsCount | src/Implementation/SDPersistentImpl.h:802-890 | A topic's first count is 1, in the last hole or at the end. |
| StoreCases.WillHalves | src/Implementation/SDPersistentImpl.h:1752-1823 | Topic with flags and message of a will are stored independently of each other, over zeroes if there was none; a topic of 255 characters is not stored. |
| StoreCases.MisplacedIsNotSent | src/Implementation/SDPersistentImpl.h:2148-2182 | A message that carries another slot's publish id is not sent, since its transaction fails; one that carries an id past the end is sent and stays queued. |
| Core.CoreImpl.RemoveClientSubscriptions | src/CoreImpl.cpp:1209-1249 | Terminates, with the subscription count as its measure, and does what the removal specification says. |
| Core.CoreImpl.RemoveLastTopic | src/CoreImpl.cpp:1223-1247 | One turn: read by index, deleted by id, counted down, unsubscribed at the broker at zero. |
| Core.CoreImpl.DropClient | src/CoreImpl.cpp:266-270 | remove_client_subscriptions, then delete_client. |
| Core.CoreImpl.AddClient | src/CoreImpl.cpp:239-295 | The effect of CONNECT; SUCCESS if and only if the broker is reachable and the id has fewer than 24 characters. |
| Core.CoreImpl.RemoveWill | src/CoreImpl.cpp:297-307 | Deletes the will of a known client. |
| Core.CoreImpl.AddWillTopic | src/CoreImpl.cpp:309-332 | Stores the will topic if and only if WILLTOPIC is awaited and the broker is reachable. |
| Core.CoreImpl.AddWillMsg | src/CoreImpl.cpp:334-356 | Stores the will message if and only if WILLMSG is awaited and the broker is reachable. |
| Core.CoreImpl.AwaitMessage | src/CoreImpl.cpp:358-369 | Sets the await type of a known client. |
| Core.CoreImpl.RegisterTopic | src/CoreImpl.cpp:371-434 | Registers the name and returns its id; SUCCESS exactly for a known client while the broker is reachable. |
| Core.CoreImpl.AddSubscription | src/CoreImpl.cpp:585-746 | The whole SUBSCRIBE, with the broker's answer; SUCCESS exactly when it is granted, with the topic id and a QoS of at most 1. |
| Core.CoreImpl.EnterSubscription | src/CoreImpl.cpp:675-692 | Adds the subscription, counts it, and says whether it is the topic's first. |
| Core.CoreImpl.DeleteTopic | src/CoreImpl.cpp:760-786 | What both forms of UNSUBSCRIBE have in common: the inverted test, deletion, count and broker, and when it succeeds. |
| Core.CoreImpl.DeleteSubscription | src/CoreImpl.cpp:748-787 | UNSUBSCRIBE by id, and when it succeeds: for a holder of the topic, for id 0, and for a client with a subscription under the id. |
| Core.CoreImpl.DeleteSubscriptionByName | src/CoreImpl.cpp:789-821 | UNSUBSCRIBE by name; it succeeds for every known client. |
| Core.CoreImpl.SetClientState | src/CoreImpl.cpp:823-917 | set_disconnected and set_asleep: the status of a known client; only falling asleep needs the broker. |
| Core.CoreImpl.NotifyRegackArrived | src/CoreImpl.cpp:939-984 | An awaited REGACK with code 0 or 1 makes the client idle; anything else changes nothing. The result is ZERO for another code, SUCCESS after a successful transaction, and otherwise whatever the missing return leaves. |
| Core.CoreImpl.HandleReceiveMqttPublishForClient | src/CoreImpl.cpp:1146-1170 | Queues the message for an active, asleep or awake subscriber, under its topic id and granted QoS, with its length cast to one byte. |
| Core.CoreImpl.HandleClientPublishes | src/CoreImpl.cpp:1378-1447 | Sends the next message to an idle active or awake client, or does nothing. |
| Core.CoreImpl.SendNextPublish | src/CoreImpl.cpp:1391-1443 | The part that has a message: REGISTER first for an unknown topic, then by QoS. |
| Core.CoreImpl.AnswerPing | src/CoreImpl.cpp:104-113 | An awake client without messages falls asleep with a PINGRESP. |
| Core.CoreImpl.HandleTimeout | src/CoreImpl.cpp:145-236 | The heartbeat for one client, with a 32-bit sum, the tolerance, the will and the removal. |
| Core.CoreImpl.ServeClient | src/CoreImpl.cpp:103-116 | What the loop does for one client. |
| Core.CoreImpl.Loop | src/CoreImpl.cpp:84-142 | The do-while pass terminates on every registry and visits the rows its specification names. |
| Handlers.MessageHandler.HandleConnect | src/MqttSnMessageHandler.cpp:140-164 | CONNECT is a run of one step or, accepted with a will, of two; WILLTOPICREQ is answered exactly to an accepted will, and then the client is awaited to send WILLTOPIC; otherwise CONNACK with code 0 or 3. |
| Handlers.HandlersAreLegal | src/MqttSnMessageHandler.cpp:140-282 | From a client with an id and an address, every step of the handlers in this table is legal, so their results are about runs. |
| Handlers.MessageHandler.HandleUnsubscribe | src/MqttSnMessageHandler.cpp:518-530 | UNSUBSCRIBE by id is one step and is answered with UNSUBACK whatever has been done; the DISCONNECT for a missing client is never sent. |
| Handlers.MessageHandler.HandleUnsubscribeByName | src/MqttSnMessageHandler.cpp:643-655 | The same by name. |
| Handlers.MessageHandler.HandleRegack | src/MqttSnMessageHandler.cpp:334-340 | A REGACK is one step; a client that is unknown or answers an awaited one with another code is sent DISCONNECT. |
| Handlers.MessageHandler.HandleWillTopic | src/MqttSnMessageHandler.cpp:184-204 | WILLTOPIC: an empty one removes the will unanswered; an awaited one is stored and answered WILLMSGREQ, and then WILLMSG is awaited; any other is rejected. |
| Handlers.MessageHandler.HandleWillMsg | src/MqttSnMessageHandler.cpp:231-247 | WILLMSG is accepted exactly when it is awaited. |
| Handlers.MessageHandler.HandleRegister | src/MqttSnMessageHandler.cpp:264-282 | REGISTER is answered with the topic's id, or rejected. |
| Handlers.MessageHandler.HandleSubscribe | src/MqttSnMessageHandler.cpp:539-592 | SUBSCRIBE by id is one step. The SUBACK has the request's message id; if granted the id that names the topic to the client, the granted QoS and code 0, else zeroes and the reason. |
| Handlers.MessageHandler.HandleSubscribeByName | src/MqttSnMessageHandler.cpp:594-641 | SUBSCRIBE by name registers first and then subscribes under that id. The SUBACK has the request's message id; if granted the id that names the topic, the granted QoS and code 0. |
| Handlers.MessageHandler.HandlePingreq | src/MqttSnMessageHandler.cpp:680-685 | PINGREQ with a client id wakes a known client and disconnects an unknown one. |
| Handlers.MessageHandler.HandleDisconnect | src/MqttSnMessageHandler.cpp:696-719 | DISCONNECT with and without a sleep duration, and their answers. |
| RemainingLength.LengthRoundTrip | src/Implementation/paho/pahomqttembeddedc/MQTTPacket/src/MQTTPacket.c:29-81 | Decoding inverts encoding for all 0..268435455, whatever follows on the stream, in at most four bytes (section 2.2.3 of MQTT 3.1.1). |
| RemainingLength.EncodeIsShortest | src/Implementation/paho/pahomqttembeddedc/MQTTPacket/src/MQTTPacket.c:29-45 | Every complete field that decodes to n is at least as long as the encoder's. |
| RemainingLength.PacketLenIsExactOrOneMore | src/Implementation/paho/pahomqttembeddedc/MQTTPacket/src/MQTTPacket.c:84-98 | MQTTPacket_len is the packet's size, plus one exactly at 127, 16383, 2097150 and 2097151. |
| RemainingLength.LengthFieldSize | src/Implementation/paho/pahomqttembeddedc/MQTTPacket/src/MQTTPacket.c:29-45 | The encoding has 1, 2, 3 or 4 bytes by the ranges of MQTT 3.1.1. |
| RemainingLength.Encode | src/Implementation/paho/pahomqttembeddedc/MQTTPacket/src/MQTTPacket.c:29-45 | The digit loop writes exactly the field at the pointer and returns its size. |
| RemainingLength.Decode | src/Implementation/paho/pahomqttembeddedc/MQTTPacket/src/MQTTPacket.c:54-81 | The blocking digit loop yields value, attempts and position of the scan, also for a field that never ends. |
| RemainingLength.DecodeBuf | src/Implementation/paho/pahomqttembeddedc/MQTTPacket/src/MQTTPacket.c:113-119 | The same from a buffer. |
| Bytes.Writer.Char | src/Implementation/paho/pahomqttembeddedc/MQTTPacket/src/MQTTPacket.c:152-156 | Writes one byte at the pointer and advances it; nothing past it is touched. |
| Bytes.Writer.Int | src/Implementation/paho/pahomqttembeddedc/MQTTPacket/src/MQTTPacket.c:164-170 | Writes two bytes, most significant first. |
| Bytes.ReadInt | src/Implementation/paho/pahomqttembeddedc/MQTTPacket/src/MQTTPacket.c:125-131 | readInt, most significant byte first. |
| Bytes.CharRoundTrip | src/Implementation/paho/pahomqttembeddedc/MQTTPacket/src/MQTTPacket.c:139-156 | A character survives writeChar and readChar exactly between -128 and 127. |
| Packet.WriteString | src/Implementation/paho/pahomqttembeddedc/MQTTPacket/src/MQTTPacket.c:194-206 | Writes the length-delimited form if it is not empty, else the C string, else an empty string. |
| Packet.ReadString | src/Implementation/paho/pahomqttembeddedc/MQTTPacket/src/MQTTPacket.c:215-233 | The string at the pointer, if it ends before the end of the data. |
| Packet.StrlenIsWritten | src/Implementation/paho/pahomqttembeddedc/MQTTPacket/src/MQTTPacket.c:242-251 | The computed length is the written length exactly when the two forms of a string are not both in use with different lengths. |
| Packet.FrameFound | src/Implementation/paho/pahomqttembeddedc/MQTTPacket/src/MQTTPacket.c:113-119 | A written fixed header is read back: kind byte, length, start of the body. |
| PacketReader.Read | src/Implementation/paho/pahomqttembeddedc/MQTTPacket/src/MQTTPacket.c:290-318 | The blocking read stores header, shortest length and body, returns the type and takes exactly the packet's bytes, or fails. |
| NonBlockingReader.CallsRefineBlocking | src/Implementation/paho/pahomqttembeddedc/MQTTPacket/src/MQTTPacket.c:361-409 | For every stream and every schedule of partial or empty reads, calls made while they return 0 report the packet that blocking reads made while they return 0 report, with the same type, bytes and end, and the state reset; it is the packet in front unless that has type 0. |
| NonBlockingReader.CompletesExactlyWhen | src/Implementation/paho/pahomqttembeddedc/MQTTPacket/src/MQTTPacket.c:324-409 | The packet in front is reported, by a positive return code, if and only if its type is not 0, its body is not empty, it fits, and the first four polls after the header byte, empty ones included, bring the whole length field. |
| NonBlockingReader.FinishesExactlyWhen | src/Implementation/paho/pahomqttembeddedc/MQTTPacket/src/MQTTPacket.c:324-409 | It is read to its end, reported or not, under the same condition without the type. |
| NonBlockingReader.TypeZeroIsDropped | src/Implementation/paho/pahomqttembeddedc/MQTTPacket/src/MQTTPacket.c:401-408 | A packet of type 0 that is read to its end returns 0, which also means call again: it is dropped, and the calls go on with what follows it. |
| NonBlockingReader.TypeZeroExample | src/Implementation/paho/pahomqttembeddedc/MQTTPacket/src/MQTTPacket.c:401-408 | The bytes 00 01 AA arrive and fit at once, and every call returns 0. |
| NonBlockingReader.EmptyBodyNeverDone | src/Implementation/paho/pahomqttembeddedc/MQTTPacket/src/MQTTPacket.c:386-402 | A packet without a body is never reported, however often the reader is called. |
| NonBlockingReader.ReadNb | src/Implementation/paho/pahomqttembeddedc/MQTTPacket/src/MQTTPacket.c:361-409 | The state machine over transport and buffer does what the call specification says, from any point inside a packet. |
| NonBlockingReader.DecodeNb | src/Implementation/paho/pahomqttembeddedc/MQTTPacket/src/MQTTPacket.c:324-351 | One call's worth of length digits, resumable, with the limit of four attempts. |
| WireFormat.LengthOnWire | src/Implementation/paho/pahomqttembeddedc/MQTTPacket/src/MQTTPacket.c:29-45 | The field's bytes for every length up to 268435455: seven bits a byte, lowest first, in one to four bytes. |
| WireFormat.PublishOnWire | src/Implementation/paho/pahomqttembeddedc/MQTTPacket/src/MQTTSerializePublish.c:55-91 | The packet's bytes: 48 plus 8 for dup, twice the QoS and 1 for retain, the length, topic, id (QoS above 0) and payload. |
| WireFormat.SubscribeOnWire | src/Implementation/paho/pahomqttembeddedc/MQTTPacket/src/MQTTSubscribeClient.c:63-82 | The packet starts with 130, or 138 for a duplicate (section 3.8.1 of MQTT 3.1.1), then its length, the id and the entries. |
| WireFormat.EntriesOnWire | src/Implementation/paho/pahomqttembeddedc/MQTTPacket/src/MQTTSubscribeClient.c:77-81 | The entries in order, each a filter and its requested QoS. |
| WireFormat.UnsubscribeOnWire | src/Implementation/paho/pahomqttembeddedc/MQTTPacket/src/MQTTUnsubscribeClient.c:60-77 | The packet starts with 162, or 170 for a duplicate, then its length, the id and the filters. |
| WireFormat.FiltersOnWire | src/Implementation/paho/pahomqttembeddedc/MQTTPacket/src/MQTTUnsubscribeClient.c:75-76 | The filters in order. |
| WireFormat.SubackOnWire | src/Implementation/paho/pahomqttembeddedc/MQTTPacket/src/MQTTSubscribeServer.c:93-105 | The packet starts with 144, then its length, the id and the codes, one byte each. |
| WireFormat.ConnectOnWire | src/Implementation/paho/pahomqttembeddedc/MQTTPacket/src/MQTTConnectClient.c:58-121 | The packet starts with 16 and its length; version 4 goes on with 0, 4, 77, 81, 84, 84, 4 and any other with 0, 6, 77, 81, 73, 115, 100, 112, 3; then the flags by their bits, keep-alive, client id, will, user name and password. |
| Publish.RoundTrip | src/Implementation/paho/pahomqttembeddedc/MQTTPacket/src/MQTTDeserializePublish.c:36-69 | Reading a written PUBLISH restores flags, topic, packet id (QoS above 0) and payload (section 3.3 of MQTT 3.1.1). |
| Publish.Serialize | src/Implementation/paho/pahomqttembeddedc/MQTTPacket/src/MQTTSerializePublish.c:55-91 | A positive result is the number of bytes written: header, field of the computed length, body; nothing past them is touched, and nothing at all on failure. For a topic in one form that is the packet, and it fits buflen. |
| Publish.Deserialize | src/Implementation/paho/pahomqttembeddedc/MQTTPacket/src/MQTTDeserializePublish.c:36-69 | Every readable buffer: the fields, or the place of the failure and the result it leaves. |
| Publish.LengthIsBody | src/Implementation/paho/pahomqttembeddedc/MQTTPacket/src/MQTTSerializePublish.c:31-42 | The computed length is the body's exactly for a topic in one form. |
| Publish.OneIsNotProof | src/Implementation/paho/pahomqttembeddedc/MQTTPacket/src/MQTTDeserializePublish.c:46-60 | A result of 1 means that the topic was read or that the length field had one byte. |
| Publish.EmptyBodyReturnsOne | src/Implementation/paho/pahomqttembeddedc/MQTTPacket/src/MQTTDeserializePublish.c:46-60 | The packet 30 00 is malformed and yields 1. |
| Subscribe.RoundTrip | src/Implementation/paho/pahomqttembeddedc/MQTTPacket/src/MQTTSubscribeServer.c:35-71 | Reading a written SUBSCRIBE restores id, dup and filters for every list, and the QoS bytes if and only if all are between -128 and 127 (section 3.8 of MQTT 3.1.1). |
| Subscribe.Length | src/Implementation/paho/pahomqttembeddedc/MQTTPacket/src/MQTTSubscribeClient.c:28-36 | The length loop adds up the filters' computed lengths, which for filters in one form each are the bytes the write loop emits after the fixed header. |
| Subscribe.Serialize | src/Implementation/paho/pahomqttembeddedc/MQTTPacket/src/MQTTSubscribeClient.c:50-87 | The first byte is 130, or 138 for a duplicate; with the field of the computed length and the body it is written from the start of the buffer and nowhere else; for filters in one form each that is the packet, and it fits buflen. |
| Subscribe.Deserialize | src/Implementation/paho/pahomqttembeddedc/MQTTPacket/src/MQTTSubscribeServer.c:35-71 | The entries found, in order; cut-off lists leave the number of length bytes as the result. |
| Unsubscribe.RoundTrip | src/Implementation/paho/pahomqttembeddedc/MQTTPacket/src/MQTTUnsubscribeServer.c:34-66 | Reading a written UNSUBSCRIBE restores id, dup and filters for every list (section 3.10 of MQTT 3.1.1). |
| Unsubscribe.Length | src/Implementation/paho/pahomqttembeddedc/MQTTPacket/src/MQTTUnsubscribeClient.c:28-36 | The length loop adds up the filters' computed lengths, which for filters in one form each are the bytes the write loop emits after the fixed header. |
| Unsubscribe.Serialize | src/Implementation/paho/pahomqttembeddedc/MQTTPacket/src/MQTTUnsubscribeClient.c:49-82 | The first byte is 162, or 170 for a duplicate; with the field of the computed length and the body it is written from the start of the buffer and nowhere else; for filters in one form each that is the packet, and it fits buflen. |
| Unsubscribe.Deserialize | src/Implementation/paho/pahomqttembeddedc/MQTTPacket/src/MQTTUnsubscribeServer.c:34-66 | The filters found, in order. |
| Suback.RoundTrip | src/Implementation/paho/pahomqttembeddedc/MQTTPacket/src/MQTTSubscribeClient.c:100-135 | Reading a written SUBACK restores id and count, and the codes if and only if all are between -128 and 127 (section 3.9 of MQTT 3.1.1). |
| Suback.FailureCodeReadsNegative | src/Implementation/paho/pahomqttembeddedc/MQTTPacket/src/MQTTSubscribeClient.c:123-130 | The failure code 128 is read back as -128. |
| Suback.Serialize | src/Implementation/paho/pahomqttembeddedc/MQTTPacket/src/MQTTSubscribeServer.c:82-110 | The frame, whose first byte is 144, written from the start of the buffer and nowhere else; the size check looks at 2 + count only, so the rest of the room is the caller's duty. |
| Suback.Deserialize | src/Implementation/paho/pahomqttembeddedc/MQTTPacket/src/MQTTSubscribeClient.c:100-135 | The codes found; the reader stops with -1 only after one code more than maxcount. |
| Connect.RoundTrip | src/Implementation/paho/pahomqttembeddedc/MQTTPacket/src/MQTTConnectServer.c:51-108 | For version 3 or 4 and every combination of will, user name and password, reading a written CONNECT restores every field but the version, if and only if the login part is one the reader accepts (section 3.1 of MQTT 3.1.1). |
| Connect.LengthIsBody | src/Implementation/paho/pahomqttembeddedc/MQTTPacket/src/MQTTConnectClient.c:27-47 | The computed length is the body's if and only if the version is 3 or 4. |
| Connect.VersionsAccepted | src/Implementation/paho/pahomqttembeddedc/MQTTPacket/src/MQTTConnectServer.c:36-44 | The reader accepts versions 3 and 4 only, after "MQIsdp" and "MQTT", and any prefix of these names too. |
| Connect.FlagsRoundTrip | src/Implementation/paho/pahomqttembeddedc/MQTTPacket/src/MQTTConnectClient.c:86-104 | The flags byte and its bit fields are inverse. |
| Connect.Serialize | src/Implementation/paho/pahomqttembeddedc/MQTTPacket/src/MQTTConnectClient.c:58-121 | The first byte is 16; with the field of the computed length and the body it is written from the start of the buffer and nowhere else; for versions 3 and 4 and strings in one form each that is the packet, and it fits buflen. |
| Connect.Deserialize | src/Implementation/paho/pahomqttembeddedc/MQTTPacket/src/MQTTConnectServer.c:51-108 | Every readable buffer: the fields, or a failure. |
| TopicMatching.IsTopicMatched | src/Implementation/paho/pahomqttembeddedc/MQTTClient/src/MQTTClient.h:443-468 | The pointer loop is exactly level-by-level matching, for all well-formed filters and all names. |
| TopicMatching.MatchIsStandardWhenFilled | src/Implementation/paho/pahomqttembeddedc/MQTTClient/src/MQTTClient.h:439-468 | It accepts exactly what section 4.7.1 of MQTT 3.1.1 accepts and whose wildcards meet non-empty levels. |
| TopicMatching.ParentAndEmptyLevelAreMissed | src/Implementation/paho/pahomqttembeddedc/MQTTClient/src/MQTTClient.h:449-467 | The concrete topics it misses: the parent of a final '#', and an empty level under '+'. |
| TopicMatching.EqualMatches | src/Implementation/paho/pahomqttembeddedc/MQTTClient/src/MQTTClient.h:480-481 | A filter that equals the name also matches it. |
| TopicMatching.DeliverMessage | src/Implementation/paho/pahomqttembeddedc/MQTTClient/src/MQTTClient.h:472-500 | Calls exactly the attached handlers whose filter matches, each once and in slot order, and the default handler exactly when there is none. |
| InboundQos2.TableIsHeld | src/Implementation/paho/pahomqttembeddedc/MQTTClient/src/MQTTClient.h:289-326 | Over every packet sequence the table's ids are distinct and are exactly those delivered and not yet released. |
| InboundQos2.ExactlyOnce | src/Implementation/paho/pahomqttembeddedc/MQTTClient/src/MQTTClient.h:545-600 | Between two deliveries of an id there is a handled PUBREL for it or a new session (section 4.3.3 of MQTT 3.1.1). |
| InboundQos2.StepKeeps | src/Implementation/paho/pahomqttembeddedc/MQTTClient/src/MQTTClient.h:558-600 | A QoS 2 PUBLISH is delivered exactly if its id is not 0, not held, and fewer than ten ids are held. |
| InboundQos2.ReleasedIsFree | src/Implementation/paho/pahomqttembeddedc/MQTTClient/src/MQTTClient.h:585-600 | A PUBREL whose PUBCOMP could be sent frees its id alone, a clean session frees all, and nothing else frees any. |
| InboundQos2.Client.OnPublish | src/Implementation/paho/pahomqttembeddedc/MQTTClient/src/MQTTClient.h:545-583 | The PUBLISH case of cycle, on the id array. |
| InboundQos2.Client.OnPubrel | src/Implementation/paho/pahomqttembeddedc/MQTTClient/src/MQTTClient.h:585-600 | The PUBREL case: the id is freed only after the PUBCOMP could be sent. |
| InboundQos2.Client.IsQos2MsgIdFree | src/Implementation/paho/pahomqttembeddedc/MQTTClient/src/MQTTClient.h:289-297 | No slot holds the id. |
| InboundQos2.Client.Replace | src/Implementation/paho/pahomqttembeddedc/MQTTClient/src/MQTTClient.h:301-326 | useQoS2msgid and freeQoS2msgid: the first slot with the one value gets the other. |

## Left out

- Conservation.GoodRun: excludes the UNSUBSCRIBEs that take the subscription to another topic away, which only a predefined id can do: afterwards the removal loop may not end (Unsubscribing.RemovalEndsIffLast), and the model's removal, which does, no longer stands for it.
- Gateway.PubackArrives: `remove_publish_by_msg_id` writes two zero bytes at a wrong offset; the model lets the PUBACK leave any queue behind, and has no method for it.
- Conservation.CountsAreConserved: not for runs in which the broker turns a first subscribe down or an UNSUBSCRIBE is for a topic only others hold, because a count or the broker is then wrong (Conservation.CountsKeptIff, Conservation.RefusalExample, Conservation.StrangerExample); Conservation.CountsNeverExceed is what holds there.
- Draining.QueuesStayOk: excludes PUBACK for the same misplaced write.
- Receipts.MessagesAreConserved: excludes PUBACK for the same misplaced write.
- Interleaving.RunDelivers: the order of sending, for QoS 0 messages and steps that do not address the client itself; messages that arrive meanwhile take their place in the order (Queue.EnqueuedOrder) and are covered by Receipts.MessagesAreConserved, and a QoS 1 message stalls the client (Stalls.StalledUntilConnect).
- Interleaving.SleeperIsServed: the same.
- Persistent.SDPersistent.AddClientRegistration: names have fewer than 255 characters; the source lets 255 through, but the one-byte length of an MQTT-SN message leaves room for 248.
- Publish.Serialize: the buffer has room for what is written, which the source checks only by the computed length.
- Subscribe.Serialize: the buffer has room for what is written, which the source checks only by the computed length.
- Unsubscribe.Serialize: the buffer has room for what is written, which the source checks only by the computed length.
- Connect.Serialize: the buffer has room for what is written, which the source checks only by the computed length.
- Core.CoreImpl.AddSubscription: the broker's answer is a parameter.
- Core.CoreImpl.Loop: both sides online; the offline procedures and `set_all_clients_lost` are not modelled.
- Core.CoreImpl.HandleTimeout: a failed will publish is ignored as in the source, and the floating-point tolerance is written with integer division, which it equals after truncation.
- Handlers.MessageHandler.HandlePingreq: the PINGREQ without a client id, which is answered at once, changes no state and is left out.
- Publish from a client to the broker, and the fan-out of a broker publish over the registry, which skips the last of several clients; the single delivery is modelled.
- The message ids clients choose for their own requests, flags, struct layouts and the parse functions; logging; sockets and clocks.
- MQTT.CON and TOPICS.PRE are not parsed: predefined topics are any map from ids to names.
- Files are sequences of whole records; short reads and failed writes do not occur.
- Subscribe.Deserialize: output arrays are growing sequences; the caller's `maxcount` is not modelled (the source ignores it there).
- Connect.Deserialize: fields filled in before a failure are not part of the result.
- Buffers hold what the readers touch (`Readable` in each module); reading past a buffer is not modelled.
- Outgoing QoS 1 and 2, keep-alive and the remaining packets of the MQTT client; `MQTTClient.c`.
- TopicMatching.IsTopicMatched: requires a well-formed filter, as the source assumes; topics starting with '$' get no special treatment in the source.
