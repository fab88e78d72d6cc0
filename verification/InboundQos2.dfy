/** The client's inbound QoS 2 handling: the id table, and the PUBLISH and PUBREL cases of cycle. */
module InboundQos2 {
  import Scan

  const MAX_INCOMING_QOS2_MESSAGES := 10

  datatype Message = Message(qos: nat, id: nat, topic: string, payload: seq<int>)

  /** A packet that reaches cycle, or a clean session. `sent` says whether the acknowledgement could be sent. */
  datatype Event = Publish(msg: Message, sent: bool) | Pubrel(id: nat, sent: bool) | CleanSession

  /** What happened to QoS 2 ids: delivered to the application, released by a handled PUBREL, or all forgotten. */
  datatype Entry = Delivered(id: nat) | Released(id: nat) | Forgotten

  /** The ids delivered and not released since. */
  ghost function Held(log: seq<Entry>): set<nat> {
    if log == [] then {} else HeldAfter(Held(log[..|log| - 1]), log[|log| - 1])
  }

  ghost function HeldAfter(before: set<nat>, e: Entry): set<nat> {
    match e
    case Delivered(id) => before + {id}
    case Released(id) => before - {id}
    case Forgotten => {}
  }

  /** The slot of the first occurrence, or the length. */
  function First(t: seq<nat>, x: nat): (i: nat)
    ensures i <= |t| && (i < |t| ==> t[i] == x) && x !in t[..i]
    ensures i == |t| <==> x !in t
  {
    Scan.First(t, (y: nat) => y == x)
  }

  /** useQoS2msgid and freeQoS2msgid: the first slot that holds `from` now holds `to`. */
  function ReplaceFirst(t: seq<nat>, from: nat, to: nat): (u: seq<nat>)
    ensures |u| == |t|
  {
    if from in t then t[First(t, from) := to] else t
  }

  /** The ids in the table; 0 marks a free slot. */
  ghost function Ids(t: seq<nat>): set<nat> {
    set x | x in t && x != 0
  }

  ghost predicate Distinct(t: seq<nat>) {
    forall i, j | 0 <= i < j < |t| && t[i] != 0 :: t[i] != t[j]
  }

  /** Distinct ids are as many as there are slots in use. */
  lemma {:induction false} FreeSlot(t: seq<nat>)
    requires Distinct(t)
    ensures |Ids(t)| <= |t| && (0 in t <==> |Ids(t)| < |t|)
  {
    if t != [] {
      var rest := t[1..];
      FreeSlot(rest);
      assert t == [t[0]] + rest;
      if t[0] == 0 {
        assert Ids(t) == Ids(rest);
      } else {
        assert t[0] !in rest by {
          forall j | 0 <= j < |rest| ensures rest[j] != t[0] {
            assert rest[j] == t[j + 1];
          }
        }
        assert Ids(t) == Ids(rest) + {t[0]};
      }
    }
  }

  /** Taking a free slot for a new id adds that id. */
  lemma UseAdds(t: seq<nat>, id: nat)
    requires Distinct(t) && 0 in t && id != 0 && id !in t
    ensures Distinct(ReplaceFirst(t, 0, id)) && Ids(ReplaceFirst(t, 0, id)) == Ids(t) + {id}
  {
    var k, u := First(t, 0), ReplaceFirst(t, 0, id);
    assert u[k] == id;
    forall x | x in t && x != 0 ensures x in u {
      var i :| 0 <= i < |t| && t[i] == x;
      assert u[i] == x;
    }
  }

  /** Because ids are distinct, freeing the first match removes the id altogether. */
  lemma FreeRemoves(t: seq<nat>, id: nat)
    requires Distinct(t)
    ensures Distinct(ReplaceFirst(t, id, 0)) && Ids(ReplaceFirst(t, id, 0)) == Ids(t) - {id}
  {
    var k, u := First(t, id), ReplaceFirst(t, id, 0);
    if id in t && id != 0 {
      forall x | x in t && x != 0 && x != id ensures x in u {
        var i :| 0 <= i < |t| && t[i] == x;
        assert u[i] == x;
      }
      forall i | 0 <= i < |u| ensures u[i] != id {
        assert i < k ==> t[i] in t[..k];
      }
    } else if id in t {
      assert u == t;
    }
  }

  /** What an event does to the table and adds to the log. */
  ghost function Step(t: seq<nat>, e: Event): (seq<nat>, seq<Entry>) {
    match e
    case Publish(msg, _) =>
      if msg.qos != 2 || msg.id in t || 0 !in t then (t, [])
      else (ReplaceFirst(t, 0, msg.id), [Delivered(msg.id)])
    case Pubrel(id, sent) =>
      if sent then (ReplaceFirst(t, id, 0), [Released(id)]) else (t, [])
    case CleanSession => (seq(|t|, _ => 0), [Forgotten])
  }

  /** The table and the log after a sequence of events. */
  ghost function Run(t: seq<nat>, events: seq<Event>): (seq<nat>, seq<Entry>) {
    if events == [] then (t, [])
    else
      var (u, log) := Run(t, events[..|events| - 1]);
      var (v, entries) := Step(u, events[|events| - 1]);
      (v, log + entries)
  }

  const EMPTY_TABLE: seq<nat> := [0, 0, 0, 0, 0, 0, 0, 0, 0, 0]

  /** One event, started with a table that holds exactly the held ids. A QoS 2 PUBLISH is delivered if and only if
      its id is not 0, not held, and fewer than ten are held. */
  lemma {:induction false} StepKeeps(t: seq<nat>, log: seq<Entry>, e: Event)
    requires |t| == MAX_INCOMING_QOS2_MESSAGES && Distinct(t) && Ids(t) == Held(log)
    ensures var (u, entries) := Step(t, e);
            && |u| == |t| && Distinct(u) && Ids(u) == Held(log + entries)
            && |entries| <= 1 && (forall id | Delivered(id) in entries :: id != 0 && id !in Held(log))
            && (e.Publish? && e.msg.qos == 2 ==>
                  entries == if e.msg.id != 0 && e.msg.id !in Held(log) && |Held(log)| < MAX_INCOMING_QOS2_MESSAGES
                             then [Delivered(e.msg.id)] else [])
  {
    hide Held, Distinct, ReplaceFirst, Ids;
    var (u, entries) := Step(t, e);
    FreeSlot(t);
    match e
    case Publish(msg, _) =>
      IdsMember(t, msg.id);
      if entries != [] {
        UseAdds(t, msg.id);
        HeldSnoc(log, Delivered(msg.id));
      } else {
        assert log + entries == log;
      }
    case Pubrel(id, sent) =>
      if sent {
        FreeRemoves(t, id);
        HeldSnoc(log, Released(id));
      } else {
        assert log + entries == log;
      }
    case CleanSession =>
      NoIds(|t|);
      HeldSnoc(log, Forgotten);
  }

  /** A PUBREL whose PUBCOMP could be sent frees its id, and a clean session all of them; nothing else frees any. */
  lemma {:induction false} ReleasedIsFree(t: seq<nat>, e: Event)
    requires Distinct(t)
    ensures var (u, entries) := Step(t, e);
            && (e.Pubrel? && e.sent ==> Ids(u) == Ids(t) - {e.id} && entries == [Released(e.id)])
            && (e.CleanSession? ==> Ids(u) == {} && entries == [Forgotten])
            && ((e.Pubrel? && !e.sent) || (e.Publish? && e.msg.qos != 2) ==> u == t && entries == [])
            && (e.Publish? ==> Ids(t) <= Ids(u))
  {
    hide Distinct, Ids, ReplaceFirst;
    match e
    case Publish(msg, _) =>
      IdsMember(t, msg.id);
      IdsMember(t, 0);
      if msg.qos == 2 && msg.id !in t && 0 in t && msg.id != 0 {
        UseAdds(t, msg.id);
      }
    case Pubrel(id, sent) => FreeRemoves(t, id);
    case CleanSession => NoIds(|t|);
  }

  lemma HeldSnoc(log: seq<Entry>, e: Entry)
    ensures Held(log + [e]) == HeldAfter(Held(log), e)
  {
    assert (log + [e])[..|log|] == log;
  }

  lemma IdsMember(t: seq<nat>, id: nat)
    ensures id in Ids(t) <==> id in t && id != 0
  {
  }

  lemma NoIds(n: nat)
    ensures Ids(seq(n, _ => 0)) == {} && Distinct(seq(n, _ => 0)) && |seq(n, _ => 0)| == n
  {
  }

  /** Over every sequence of events from a clean session, the table holds distinct ids, exactly the held ones. */
  lemma {:induction false} TableIsHeld(events: seq<Event>)
    ensures var (t, log) := Run(EMPTY_TABLE, events);
            |t| == MAX_INCOMING_QOS2_MESSAGES && Distinct(t) && Ids(t) == Held(log)
  {
    if events != [] {
      TableIsHeld(events[..|events| - 1]);
      var (t, log) := Run(EMPTY_TABLE, events[..|events| - 1]);
      StepKeeps(t, log, events[|events| - 1]);
    }
  }

  /** An id is held from its delivery until it is released or forgotten. */
  lemma {:induction false} HeldUntilReleased(log: seq<Entry>, i: nat, id: nat)
    requires i < |log| && log[i] == Delivered(id)
    requires forall k | i < k < |log| :: log[k] != Released(id) && log[k] != Forgotten
    ensures id in Held(log)
  {
    if i < |log| - 1 {
      HeldUntilReleased(log[..|log| - 1], i, id);
    }
  }

  /** Section 4.3.3 of MQTT 3.1.1, exactly once: between two deliveries of the same id there is a handled PUBREL for
      it, or the session was cleaned; 0 is never delivered. */
  lemma {:induction false} ExactlyOnce(events: seq<Event>, i: nat, j: nat, id: nat)
    requires var log := Run(EMPTY_TABLE, events).1; i < j < |log| && log[i] == log[j] == Delivered(id)
    ensures var log := Run(EMPTY_TABLE, events).1;
            id != 0 && exists k :: i < k < j && (log[k] == Released(id) || log[k] == Forgotten)
  {
    hide Step, Held, Distinct, Ids;
    var before := events[..|events| - 1];
    var (t, log) := Run(EMPTY_TABLE, before);
    var entries := Step(t, events[|events| - 1]).1;
    assert Run(EMPTY_TABLE, events).1 == log + entries;
    TableIsHeld(before);
    StepKeeps(t, log, events[|events| - 1]);
    assert j >= |log| ==> entries[0] == Delivered(id);
    if j < |log| {
      ExactlyOnce(before, i, j, id);
      var k :| i < k < j && (log[k] == Released(id) || log[k] == Forgotten);
      assert (log + entries)[k] == log[k];
    } else if k :| i < k < j && (log[k] == Released(id) || log[k] == Forgotten) {
      assert (log + entries)[k] == log[k];
    } else {
      HeldUntilReleased(log, i, id);
    }
  }

  /** The part of the MQTT client that handles inbound packets. */
  class Client {
    const incomingQos2Messages: array<nat>
    var delivered: seq<Message>
    ghost var log: seq<Entry>

    ghost predicate Valid()
      reads this, incomingQos2Messages
    {
      && incomingQos2Messages.Length == MAX_INCOMING_QOS2_MESSAGES
      && Distinct(incomingQos2Messages[..]) && Ids(incomingQos2Messages[..]) == Held(log)
    }

    /** The constructor starts with a clean session. */
    constructor ()
      ensures Valid() && fresh(incomingQos2Messages) && incomingQos2Messages[..] == EMPTY_TABLE
      ensures delivered == [] && log == []
    {
      incomingQos2Messages := new nat[MAX_INCOMING_QOS2_MESSAGES];
      delivered := [];
      log := [];
      new;
      for i := 0 to MAX_INCOMING_QOS2_MESSAGES
        invariant forall j | 0 <= j < i :: incomingQos2Messages[j] == 0
        modifies incomingQos2Messages
      {
        incomingQos2Messages[i] := 0;
      }
    }

    /** isQoS2msgidFree. */
    method IsQos2MsgIdFree(id: nat) returns (free: bool)
      ensures free <==> id !in incomingQos2Messages[..]
    {
      for i := 0 to incomingQos2Messages.Length
        invariant id !in incomingQos2Messages[..i]
      {
        if incomingQos2Messages[i] == id {
          return false;
        }
      }
      assert incomingQos2Messages[..] == incomingQos2Messages[..incomingQos2Messages.Length];
      free := true;
    }

    /** useQoS2msgid and freeQoS2msgid share this scan. Returns whether a slot was found. */
    method Replace(from: nat, to: nat) returns (found: bool)
      modifies incomingQos2Messages
      ensures found <==> from in old(incomingQos2Messages[..])
      ensures incomingQos2Messages[..] == ReplaceFirst(old(incomingQos2Messages[..]), from, to)
    {
      for i := 0 to incomingQos2Messages.Length
        invariant from !in incomingQos2Messages[..i]
        invariant incomingQos2Messages[..] == old(incomingQos2Messages[..])
      {
        if incomingQos2Messages[i] == from {
          FirstIs(incomingQos2Messages[..], from, i);
          incomingQos2Messages[i] := to;
          return true;
        }
      }
      found := false;
    }

    /** cycle, for a PUBLISH. `ackSent` is the result of sending the acknowledgement. */
    method OnPublish(msg: Message, ackSent: bool) returns (ok: bool)
      requires Valid()
      modifies this, incomingQos2Messages
      ensures Valid()
      ensures var (t, entries) := Step(old(incomingQos2Messages[..]), Publish(msg, ackSent));
              && incomingQos2Messages[..] == t && log == old(log) + entries
              && delivered == old(delivered) + if msg.qos != 2 || entries != [] then [msg] else []
      ensures ok <==> msg.qos == 0 || ackSent
    {
      StepKeeps(incomingQos2Messages[..], log, Publish(msg, ackSent));
      if msg.qos != 2 {
        delivered := delivered + [msg];
      } else {
        var free := IsQos2MsgIdFree(msg.id);
        if free {
          var used := Replace(0, msg.id);
          if used {
            delivered := delivered + [msg];
            log := log + [Delivered(msg.id)];
          }
        }
      }
      if log == old(log) {
        assert log == old(log) + [];
      }
      ok := msg.qos == 0 || ackSent;
    }

    /** cycle, for a PUBREL: the id is freed only after PUBCOMP has been sent. */
    method OnPubrel(id: nat, ackSent: bool) returns (ok: bool)
      requires Valid()
      modifies this, incomingQos2Messages
      ensures Valid() && delivered == old(delivered) && ok == ackSent
      ensures (incomingQos2Messages[..], log) ==
              var (t, entries) := Step(old(incomingQos2Messages[..]), Pubrel(id, ackSent)); (t, old(log) + entries)
    {
      StepKeeps(incomingQos2Messages[..], log, Pubrel(id, ackSent));
      if !ackSent {
        assert log == log + [];
        return false;
      }
      var _ := Replace(id, 0);
      log := log + [Released(id)];
      ok := true;
    }

    method CleanSession()
      requires Valid()
      modifies this, incomingQos2Messages
      ensures Valid() && delivered == old(delivered)
      ensures (incomingQos2Messages[..], log) ==
              var (t, entries) := Step(old(incomingQos2Messages[..]), Event.CleanSession); (t, old(log) + entries)
    {
      StepKeeps(incomingQos2Messages[..], log, Event.CleanSession);
      for i := 0 to incomingQos2Messages.Length
        invariant forall j | 0 <= j < i :: incomingQos2Messages[j] == 0
        modifies incomingQos2Messages
      {
        incomingQos2Messages[i] := 0;
      }
      log := log + [Forgotten];
      assert incomingQos2Messages[..] == seq(incomingQos2Messages.Length, _ => 0);
    }
  }

  lemma FirstIs(t: seq<nat>, x: nat, i: nat)
    requires i < |t| && t[i] == x && x !in t[..i]
    ensures First(t, x) == i
  {
    var k := First(t, x);
    forall j | 0 <= j < i ensures t[j] != x {
      assert t[..i][j] == t[j];
    }
    forall j | 0 <= j < k ensures t[j] != x {
      assert t[..k][j] == t[j];
    }
  }
}
