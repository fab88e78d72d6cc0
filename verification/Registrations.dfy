/** Topic registration is a stable bijection between ids and names. */
module Registrations {
  import opened Bytes
  import opened Scan
  import opened Store
  import opened Gateway
  import opened Soundness
  import opened Operations
  import opened Unsubscribing
  import opened Effects
  import opened Visits
  import opened Ownership

  /** The step deletes the files of slot n: a clean CONNECT of its client, or a visit that ends in the client's will. */
  ghost predicate Deletes(s: Sys, step: Step, n: nat) {
    match step
    case Connect(id, _, clean, _) =>
      s.online && |id| < MAXIMUM_CLIENT_ID_LENGTH && clean && n < |s.db.registry| && First(s.db.registry, ById(id)) == n
    case VisitStep(k, _, _) =>
      k == n && NthClient(s.db, n).id != "" && NthClient(Do(s, step).db, n).id == ""
    case _ => false
  }

  /** Registrations of a client are only ever added to, until its files are deleted. */
  lemma StepExtends(s: Sys, step: Step, n: nat)
    requires Inv(s) && Owned(s.db) && Legal(step) && !Deletes(s, step, n)
    ensures FilesAt(s.db.files, n).regs <= FilesAt(Do(s, step).db.files, n).regs
  {
    hide Inv, Owned, Gateway.AddClient, Visit, OnlyAt;
    match step {
      case Connect(id, duration, clean, address) =>
        ConnectEffect(s, id, duration, clean, address);
      case VisitStep(k, heartbeat, garbage) =>
        if k < |s.db.registry| && s.db.registry[k].id != "" {
          VisitOnly(s, k, heartbeat, garbage);
          OtherFiles(s.db, Do(s, step).db, k, n);
        } else {
          EmptyVisit(s, k, heartbeat, garbage);
        }
      case _ =>
        QuietKept(s, step);
        KeptRegs(s.db, Do(s, step).db, n);
    }
  }

  lemma OtherFiles(d: Db, e: Db, k: nat, n: nat)
    requires OnlyAt(d, e, k)
    ensures n != k ==> FilesAt(e.files, n) == FilesAt(d.files, n)
  {
  }

  lemma KeptRegs(d: Db, e: Db, n: nat)
    requires Kept(d, e)
    ensures FilesAt(d.files, n).regs <= FilesAt(e.files, n).regs
  {
  }

  /** No step of the run deletes the files of slot n. */
  ghost predicate Survives(s: Sys, steps: seq<Step>, n: nat) {
    steps != [] ==>
      Survives(s, steps[..|steps| - 1], n) && !Deletes(Run(s, steps[..|steps| - 1]), steps[|steps| - 1], n)
  }

  lemma {:induction false} RunExtends(s: Sys, steps: seq<Step>, n: nat)
    requires Inv(s) && Owned(s.db) && OwnedRun(s, steps) && Survives(s, steps, n)
    ensures FilesAt(s.db.files, n).regs <= FilesAt(Run(s, steps).db.files, n).regs
  {
    hide Inv, Owned, Do, Deletes, MakesHole, OwnAddress;
    if steps != [] {
      var before := steps[..|steps| - 1];
      RunExtends(s, before, n);
      OwnedRunKeeps(s, before);
      StepExtends(Run(s, before), steps[|steps| - 1], n);
    }
  }

  /** The name a client's id stands for: what get_topic_name returns in a transaction of that client. */
  ghost function NameOf(d: Db, n: nat, id: nat): Option<TopicName> {
    GetTopicName(d.(started := true, error := false, missing := false, entry := NO_CLIENT.(fileNumber := n)), id)
  }

  /** The id a client's name stands for: what add_client_registration returns. */
  ghost function IdOf(d: Db, n: nat, name: TopicName): nat {
    var open := d.(started := true, error := false, missing := false, entry := NO_CLIENT.(fileNumber := n));
    Store.AddRegistration(open, name, 0).1
  }

  lemma FileRegsOk(d: Db, n: nat)
    requires TablesOk(d.files, d.counts)
    ensures RegsOk(FilesAt(d.files, n).regs)
  {
  }

  /** Registering a name that is there finds its id, and that id names it: a bijection on 1..k. */
  lemma IdsAndNames(s: Sys, n: nat, id: nat, name: TopicName)
    requires Inv(s)
    ensures var k := |FilesAt(s.db.files, n).regs|;
            && (NameOf(s.db, n, id).Some? <==> 1 <= id <= k)
            && (NameOf(s.db, n, id) == Some(name) ==> IdOf(s.db, n, name) == id)
            && (IdOf(s.db, n, name) <= k ==> NameOf(s.db, n, IdOf(s.db, n, name)) == Some(name))
            && 1 <= IdOf(s.db, n, name) <= k + 1
  {
    hide Sound;
    InvSound(s);
    SoundEntry(s.db);
    FileRegsOk(s.db, n);
    var d := s.db.(started := true, error := false, missing := false, entry := NO_CLIENT.(fileNumber := n));
    var regs := FilesAt(s.db.files, n).regs;
    TopicNameFound(d, id);
    var i := First(regs, RegistrationNamed(name));
    if i < |regs| {
      TopicNameFound(d, regs[i].topicId);
    }
    if NameOf(s.db, n, id) == Some(name) {
      FirstIs(regs, RegistrationNamed(name), id - 1);
    }
  }

  /** REGISTER from a connected client: the id it returns names the topic afterwards. */
  lemma RegisterNames(s: Sys, address: nat, name: TopicName)
    requires Inv(s) && s.online && address != 0 && Ready(StartByAddress(s.db, address))
    ensures var d := StartByAddress(s.db, address);
            var id := Store.AddRegistration(d, name, 0).1;
            NameOf(RegisterTopic(s, address, name).db, d.entry.fileNumber, id) == Some(name)
  {
    hide Sound, Store.AddRegistration, GetTopicName;
    var d := StartByAddress(s.db, address);
    Opened(s, address);
    AddRegistrationKeeps(d, name, 0);
    RegisterKeeps(s, address, name);
    NameIsRegistered(RegisterTopic(s, address, name), d.entry.fileNumber, Store.AddRegistration(d, name, 0).1);
  }

  /** Once an id names a topic for a client, it names it in all later states until the client's files are deleted,
      and registering the topic again returns the same id. */
  lemma {:induction false} NamesAreStable(s: Sys, steps: seq<Step>, n: nat, id: nat, name: TopicName)
    requires Inv(s) && Owned(s.db) && OwnedRun(s, steps) && Survives(s, steps, n)
    requires NameOf(s.db, n, id) == Some(name)
    ensures var end := Run(s, steps).db; NameOf(end, n, id) == Some(name) && IdOf(end, n, name) == id
  {
    hide Inv, Owned, OwnedRun, Survives, GetTopicName, Store.AddRegistration, Run;
    var end := Run(s, steps);
    RunExtends(s, steps, n);
    OwnedRunKeeps(s, steps);
    IdsAndNames(s, n, id, name);
    IdsAndNames(end, n, id, name);
    NameIsRegistered(s, n, id);
    NameIsRegistered(end, n, id);
  }

  lemma NameIsRegistered(s: Sys, n: nat, id: nat)
    requires Inv(s)
    ensures var regs := FilesAt(s.db.files, n).regs;
            NameOf(s.db, n, id) == if 1 <= id <= |regs| then Some(regs[id - 1].name) else None
  {
    hide Sound;
    InvSound(s);
    SoundEntry(s.db);
    FileRegsOk(s.db, n);
    TopicNameFound(s.db.(started := true, error := false, missing := false, entry := NO_CLIENT.(fileNumber := n)), id);
  }
}
