/** A client is lost at the first heartbeat at which its summed silence exceeds the tolerance, and not before. */
module Timeouts {
  import opened Bytes
  import opened Store
  import opened Gateway
  import opened Soundness
  import opened Operations
  import opened Unsubscribing
  import opened Effects
  import opened Visits
  import opened Ownership

  const WORD := 0x1_0000_0000
  const MAXIMUM_TOLERANCE := 72088500

  /** The client in row n is active, asleep or awake. */
  predicate Present(d: Db, n: nat) {
    NthClient(d, n).id != "" && NthClient(d, n).status in {ACTIVE, ASLEEP, AWAKE}
  }

  /** The heartbeats of a run that reach row n, added up. */
  function Silence(steps: seq<Step>, n: nat): nat {
    if steps == [] then 0 else Silence(steps[..|steps| - 1], n) + Beat(steps[|steps| - 1], n)
  }

  function Beat(step: Step, n: nat): nat {
    if step.VisitStep? && step.n == n && step.heartbeat.Some? then step.heartbeat.value else 0
  }

  /** The step does not connect the client of row n again. */
  predicate NotReconnected(d: Db, step: Step, n: nat) {
    step.Connect? ==> step.id != NthClient(d, n).id
  }

  /** What any other operation does to a client's row: its name, duration and timeout stay. */
  lemma OthersKeepTimeout(s: Sys, step: Step, n: nat)
    requires Inv(s) && Owned(s.db) && Legal(step) && NthClient(s.db, n).id != "" && NotReconnected(s.db, step, n)
    requires !(step.VisitStep? && step.n == n && step.heartbeat.Some?)
    ensures var c, e := NthClient(s.db, n), NthClient(Do(s, step).db, n);
            e.id == c.id && e.duration == c.duration && e.timeout == c.timeout
  {
    hide Inv, Owned, Gateway.AddClient, Visit, OnlyAt, Kept, Served;
    match step {
      case Connect(id, duration, clean, address) =>
        ConnectEffect(s, id, duration, clean, address);
        InvSound(s);
        ConnectElsewhere(s.db.registry, id, clean, n);
      case VisitStep(k, heartbeat, garbage) =>
        if k < |s.db.registry| && s.db.registry[k].id != "" {
          if k == n {
            OwnedDistinct(s.db);
            ServedServes(s, n, garbage);
            ServedFacts(s.db, Served(s, n, garbage).db, n);
            VisitWithoutBeat(s, n, garbage);
          } else {
            VisitOnly(s, k, heartbeat, garbage);
            OtherRow(s.db, Do(s, step).db, k, n);
          }
        } else {
          EmptyVisit(s, k, heartbeat, garbage);
        }
      case _ =>
        QuietKept(s, step);
        ServedFacts(s.db, Do(s, step).db, n);
    }
  }

  lemma VisitWithoutBeat(s: Sys, n: nat, garbage: bool)
    ensures Visit(s, n, None, garbage) == Served(s, n, garbage)
  {
  }

  lemma OtherRow(d: Db, e: Db, k: nat, n: nat)
    requires OnlyAt(d, e, k) && n != k
    ensures NthClient(e, n) == NthClient(d, n)
  {
  }

  /** Another client's CONNECT does not end in this row. */
  lemma ConnectElsewhere(rows: seq<Client>, id: string, clean: bool, n: nat)
    requires RowsOk(rows) && id != "" && n < |rows| && rows[n].id != "" && rows[n].id != id
    ensures ConnectSlot(rows, id, clean) != n && RowsFor(rows, id)[n] == rows[n] && |RowsFor(rows, id)| == |rows|
  {
  }

  /** One heartbeat: the client stays exactly while the sum stays within the tolerance; then the sum is stored. */
  lemma BeatDecides(s: Sys, n: nat, elapsed: nat, garbage: bool)
    requires Inv(s) && Owned(s.db) && Present(s.db, n)
    requires NthClient(s.db, n).timeout + elapsed < WORD
    ensures var c, e := NthClient(s.db, n), NthClient(Visit(s, n, Some(elapsed), garbage).db, n);
            var sum := c.timeout + elapsed;
            var tolerated := if c.duration > 60000 then 10 * sum <= 11 * c.duration else 2 * sum <= 3 * c.duration;
            && (Present(Visit(s, n, Some(elapsed), garbage).db, n) <==> tolerated)
            && (tolerated ==> e.id == c.id && e.duration == c.duration && e.timeout == sum)
            && (!tolerated ==> e.status == LOST || e == NO_CLIENT)
  {
    hide Inv, Owned, OnlyAt, Kept, AnswerPing, HandlePublishes, HandleTimeout;
    OwnedDistinct(s.db);
    ServedServes(s, n, garbage);
    var served := Served(s, n, garbage);
    ServedFacts(s.db, served.db, n);
    HandleTimeoutAt(served, n, s.db.registry[n], elapsed);
    ServedStatus(s, n, garbage);
    SameSize(served.db, HandleTimeout(served, s.db.registry[n], elapsed).db, n);
  }

  lemma SameSize(d: Db, e: Db, n: nat)
    requires OnlyAt(d, e, n)
    ensures |e.registry| == |d.registry|
  {
  }

  /** Being served does not end a client's presence. */
  lemma ServedStatus(s: Sys, n: nat, garbage: bool)
    requires Inv(s) && Owned(s.db) && Present(s.db, n)
    ensures Present(Served(s, n, garbage).db, n)
  {
    hide Inv, Owned, Sound, Kept, OnlyAt, SendNext, AnswerPing, HandlePublishes;
    var row := s.db.registry[n];
    OwnedDistinct(s.db);
    LiveRow(s, n);
    HandlePublishesServes(s, n, garbage);
    HandlePublishesKeeps(s, row.status, row.address, garbage);
    var t := HandlePublishes(s, row.status, row.address, garbage);
    ServedFacts(s.db, t.db, n);
    ServedRow(s.db, t.db, n);
    HandlePublishesStatus(s, n, garbage);
    AnswerPingServes(t, n, row.status);
    ServedFacts(t.db, AnswerPing(t, row.status, row.address).db, n);
    AnswerPingStatus(t, n, row.status);
  }

  lemma HandlePublishesStatus(s: Sys, n: nat, garbage: bool)
    requires Inv(s) && Owned(s.db) && Present(s.db, n)
    ensures var row := s.db.registry[n];
            NthClient(HandlePublishes(s, row.status, row.address, garbage).db, n).status == row.status
  {
    hide Inv, Sound, HandlePublishes, Kept;
    var row := s.db.registry[n];
    OwnRow(s, n);
    if row.status in {AWAKE, ACTIVE} {
      var e := HandlePublishesAtEntry(s, row.status, row.address, garbage);
    } else {
      NothingToSend(s, row.status, row.address, garbage);
    }
  }

  lemma NothingToSend(s: Sys, status: Status, address: nat, garbage: bool)
    requires status !in {AWAKE, ACTIVE}
    ensures HandlePublishes(s, status, address, garbage) == s
  {
  }

  lemma AnswerPingStatus(s: Sys, n: nat, status: Status)
    requires Inv(s) && DistinctAddresses(s.db.registry) && NthClient(s.db, n).id != ""
    ensures var c := NthClient(s.db, n);
            NthClient(AnswerPing(s, status, c.address).db, n).status in {c.status, ASLEEP}
  {
    hide Inv, Sound, SetStatus, HasPublishes;
    OwnRow(s, n);
    StatusWritten(StartByAddress(s.db, s.db.registry[n].address), ASLEEP);
  }

  /** The client of row n is present all along the run, is not connected again, and no single heartbeat is so long
      that the 32-bit sum could wrap. */
  ghost predicate Stays(s: Sys, steps: seq<Step>, n: nat) {
    && Present(Run(s, steps).db, n)
    && (steps != [] ==>
          var before, step := steps[..|steps| - 1], steps[|steps| - 1];
          Stays(s, before, n) && NotReconnected(Run(s, before).db, step, n) && Beat(step, n) < WORD - MAXIMUM_TOLERANCE)
  }

  /** The client's duration fits the 16 bits of its CONNECT, and its silence is within the tolerance. */
  predicate Tolerated(c: Client) {
    c.duration <= 65535000 && Within(c.duration, c.timeout)
  }

  /** The client right after its CONNECT. */
  lemma ConnectedTolerated(s: Sys, id: string, duration: nat, clean: bool, address: nat)
    requires Inv(s) && Legal(Connect(id, duration, clean, address)) && s.online && |id| < MAXIMUM_CLIENT_ID_LENGTH
    ensures var t := Gateway.AddClient(s, id, duration, clean, address).db;
            var c := NthClient(t, ConnectSlot(s.db.registry, id, clean));
            c.id == id && c.timeout == 0 && c.duration == duration * 1000 && c.status == ACTIVE && Tolerated(c)
  {
    hide Inv, Gateway.AddClient, RowsFor;
    ConnectEffect(s, id, duration, clean, address);
  }

  lemma StepTimeout(s: Sys, step: Step, n: nat)
    requires Inv(s) && Owned(s.db) && Legal(step) && Present(s.db, n) && Tolerated(NthClient(s.db, n))
    requires NotReconnected(s.db, step, n) && Beat(step, n) < WORD - MAXIMUM_TOLERANCE
    ensures var c, e := NthClient(s.db, n), NthClient(Do(s, step).db, n);
            (Present(Do(s, step).db, n) || !(step.VisitStep? && step.n == n && step.heartbeat.Some?)) ==>
              e.id == c.id && e.duration == c.duration && e.timeout == c.timeout + Beat(step, n)
              && Within(e.duration, e.timeout)
    ensures step.VisitStep? && step.n == n && step.heartbeat.Some? ==>
              var c := NthClient(s.db, n);
              Present(Do(s, step).db, n) <==> Within(c.duration, c.timeout + Beat(step, n))
  {
    hide Inv, Owned, Visit;
    if step.VisitStep? && step.n == n && step.heartbeat.Some? {
      BeatDecides(s, n, step.heartbeat.value, step.garbage);
    } else {
      OthersKeepTimeout(s, step, n);
    }
  }

  /** While the client stays, its stored timeout is the sum of the heartbeats since the start, within the tolerance. */
  lemma {:induction false} TimeoutIsSilence(s: Sys, steps: seq<Step>, n: nat)
    requires Inv(s) && Owned(s.db) && OwnedRun(s, steps) && Tolerated(NthClient(s.db, n))
    ensures var c, e := NthClient(s.db, n), NthClient(Run(s, steps).db, n);
            Stays(s, steps, n) ==>
              e.id == c.id && e.duration == c.duration && e.timeout == c.timeout + Silence(steps, n) && Tolerated(e)
  {
    hide Inv, Owned, Do, Present, OwnAddress, MakesHole;
    if steps != [] && Stays(s, steps, n) {
      var before := steps[..|steps| - 1];
      TimeoutIsSilence(s, before, n);
      OwnedRunKeeps(s, before);
      StaysPresent(s, before, n);
      StepTimeout(Run(s, before), steps[|steps| - 1], n);
    }
  }

  lemma StaysPresent(s: Sys, steps: seq<Step>, n: nat)
    requires Stays(s, steps, n)
    ensures Present(Run(s, steps).db, n)
  {
  }

  /** Section 7.2 of MQTT-SN v1.2, as the gateway counts: a client that has stayed so far leaves at this heartbeat
      exactly when the summed silence exceeds the tolerance. */
  lemma LeavesExactlyWhenExceeded(s: Sys, steps: seq<Step>, n: nat, elapsed: nat, garbage: bool)
    requires Inv(s) && Owned(s.db) && OwnedRun(s, steps) && Tolerated(NthClient(s.db, n))
    requires elapsed < WORD - MAXIMUM_TOLERANCE
    ensures var c := NthClient(s.db, n);
            Stays(s, steps, n) ==>
              (Present(Visit(Run(s, steps), n, Some(elapsed), garbage).db, n) <==>
               var sum := c.timeout + Silence(steps, n) + elapsed;
               if c.duration > 60000 then 10 * sum <= 11 * c.duration else 2 * sum <= 3 * c.duration)
  {
    hide Inv, Owned, Visit, Present, OwnedRun, Run;
    if Stays(s, steps, n) {
      OwnedRunKeeps(s, steps);
      TimeoutIsSilence(s, steps, n);
      StaysPresent(s, steps, n);
      BeatDecides(Run(s, steps), n, elapsed, garbage);
    }
  }
}
