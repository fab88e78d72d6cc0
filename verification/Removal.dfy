/** When remove_client_subscriptions ends: exactly when the used subscription slots are the first ones. */
module Removal {
  import opened Scan
  import opened Store
  import opened Gateway
  import opened Soundness
  import opened Operations

  /** One turn of the removal loop on a whole state; with no subscription left there is none. */
  ghost function Turn(s: Sys): Sys {
    var k := SubscriptionCount(s.db);
    if k == 0 then s
    else
      var id := NthSubscribedTopicId(s.db, k - 1);
      RemoveOne(s, id, GetTopicName(s.db, id))
  }

  ghost function Turns(s: Sys, n: nat): Sys
    decreases n
  {
    if n == 0 then s else Turns(Turn(s), n - 1)
  }

  /** What a turn does to the subscription table. */
  ghost function Shrunk(subs: seq<Subscription>): (less: seq<Subscription>)
    ensures |less| == |subs|
  {
    var k := Count(subs, IsSubscription);
    if k == 0 then subs
    else
      var id := subs[k - 1].topicId;
      if id == 0 then subs else subs[First(subs, SubscriptionWithId(id)) := NO_SUBSCRIPTION]
  }

  lemma TurnShrinks(s: Sys)
    requires Ready(s.db)
    ensures Ready(Turn(s).db) && Mine(Turn(s).db).subs == Shrunk(Mine(s.db).subs)
  {
    hide GetTopicName, Decremented, CountOf;
    var subs, k := Mine(s.db).subs, SubscriptionCount(s.db);
    if k > 0 && subs[k - 1].topicId != 0 {
      assert SubscriptionWithId(subs[k - 1].topicId)(subs[k - 1]);
    }
  }

  /** The used slots are the first ones. */
  ghost predicate Prefix(subs: seq<Subscription>) {
    forall i, j | 0 <= i < j < |subs| && IsSubscription(subs[j]) :: IsSubscription(subs[i])
  }

  ghost predicate DistinctIds(subs: seq<Subscription>) {
    forall i, j | 0 <= i < j < |subs| && IsSubscription(subs[i]) :: subs[i].topicId != subs[j].topicId
  }

  /** The count of used slots when one of them is zeroed. */
  lemma {:induction false} OneLess(subs: seq<Subscription>, k: nat)
    requires k < |subs| && IsSubscription(subs[k])
    ensures Count(subs[k := NO_SUBSCRIPTION], IsSubscription) == Count(subs, IsSubscription) - 1
  {
    var last := |subs| - 1;
    if k == last {
      assert subs[k := NO_SUBSCRIPTION][..last] == subs[..last];
    } else {
      OneLess(subs[..last], k);
      assert subs[k := NO_SUBSCRIPTION][..last] == subs[..last][k := NO_SUBSCRIPTION];
    }
  }

  lemma {:induction false} CountAtLeast(subs: seq<Subscription>, m: nat)
    requires m <= |subs| && forall i | 0 <= i < m :: IsSubscription(subs[i])
    ensures Count(subs, IsSubscription) >= m
  {
    if m > 0 {
      var last := |subs| - 1;
      CountAtLeast(subs[..last], if m == |subs| then m - 1 else m);
    }
  }

  /** The used slots are the first ones exactly when the slots up to the count are used. */
  lemma {:induction false} PrefixIsCount(subs: seq<Subscription>)
    ensures Prefix(subs) <==> forall i | 0 <= i < Count(subs, IsSubscription) :: IsSubscription(subs[i])
    ensures Count(subs, IsSubscription) == |subs| <==> forall i | 0 <= i < |subs| :: IsSubscription(subs[i])
  {
    if subs != [] {
      var less, last := subs[..|subs| - 1], subs[|subs| - 1];
      PrefixIsCount(less);
      assert Count(subs, IsSubscription) == Count(less, IsSubscription) + if IsSubscription(last) then 1 else 0;
      assert forall i | 0 <= i < |less| :: less[i] == subs[i];
      if IsSubscription(last) {
        if Prefix(subs) {
          assert forall i | 0 <= i < |less| :: IsSubscription(less[i]);
        } else if forall i | 0 <= i < Count(subs, IsSubscription) :: IsSubscription(subs[i]) {
          assert Prefix(less);
          CountAtLeast(less, if Count(subs, IsSubscription) == |subs| then |less| else Count(subs, IsSubscription));
        }
      }
    }
  }

  lemma ShrunkTable(subs: seq<Subscription>)
    requires DistinctIds(subs) && Count(subs, IsSubscription) > 0
    ensures var k := Count(subs, IsSubscription);
            if IsSubscription(subs[k - 1]) then
              && Shrunk(subs) == subs[k - 1 := NO_SUBSCRIPTION]
              && Count(Shrunk(subs), IsSubscription) == k - 1
            else Shrunk(subs) == subs
    ensures DistinctIds(Shrunk(subs))
  {
    hide Count;
    var k := Count(subs, IsSubscription);
    if IsSubscription(subs[k - 1]) {
      FirstIs(subs, SubscriptionWithId(subs[k - 1].topicId), k - 1);
      OneLess(subs, k - 1);
    }
  }

  /** A turn keeps the table in order, or out of order. */
  lemma ShrunkPrefix(subs: seq<Subscription>)
    requires DistinctIds(subs) && Count(subs, IsSubscription) > 0
    ensures Prefix(Shrunk(subs)) <==> Prefix(subs)
  {
    hide Count, Prefix, Shrunk, DistinctIds;
    var k := Count(subs, IsSubscription);
    ShrunkTable(subs);
    PrefixIsCount(subs);
    PrefixIsCount(Shrunk(subs));
    if IsSubscription(subs[k - 1]) {
      assert forall i | 0 <= i < k - 1 :: Shrunk(subs)[i] == subs[i];
      assert (forall i | 0 <= i < k :: IsSubscription(subs[i])) <==>
             forall i | 0 <= i < k - 1 :: IsSubscription(subs[i]);
    }
  }

  /** From a table in order, as many turns as there are subscriptions empty it. */
  lemma {:induction false} OrderedEnds(s: Sys, n: nat)
    requires Ready(s.db) && DistinctIds(Mine(s.db).subs) && Prefix(Mine(s.db).subs)
    requires n == SubscriptionCount(s.db)
    ensures SubscriptionCount(Turns(s, n).db) == 0
    decreases n
  {
    hide Turn, Shrunk, Count, Prefix, DistinctIds;
    if n > 0 {
      TurnShrinks(s);
      ShrunkTable(Mine(s.db).subs);
      ShrunkPrefix(Mine(s.db).subs);
      PrefixIsCount(Mine(s.db).subs);
      OrderedEnds(Turn(s), n - 1);
    }
  }

  /** From a table with a hole before a subscription, no number of turns empties it. */
  lemma {:induction false} HoleNeverEnds(s: Sys, n: nat)
    requires Ready(s.db) && DistinctIds(Mine(s.db).subs) && !Prefix(Mine(s.db).subs)
    ensures SubscriptionCount(Turns(s, n).db) > 0
    decreases n
  {
    hide Turn, Shrunk, Count, Prefix, DistinctIds;
    var subs := Mine(s.db).subs;
    PrefixIsCount(subs);
    if n > 0 {
      TurnShrinks(s);
      ShrunkTable(subs);
      ShrunkPrefix(subs);
      HoleNeverEnds(Turn(s), n - 1);
    }
  }

  /** With distinct topic ids, the removal loop ends exactly when the used slots are the first ones. */
  lemma EndsExactlyWhenOrdered(s: Sys)
    requires Ready(s.db) && DistinctIds(Mine(s.db).subs)
    ensures (exists n :: SubscriptionCount(Turns(s, n).db) == 0) <==> Prefix(Mine(s.db).subs)
  {
    hide Turns, Prefix, DistinctIds, SubscriptionCount;
    if Prefix(Mine(s.db).subs) {
      OrderedEnds(s, SubscriptionCount(s.db));
    } else {
      forall n ensures SubscriptionCount(Turns(s, n).db) != 0 {
        HoleNeverEnds(s, n);
      }
    }
  }

  /** The removal of the runs is this loop. */
  lemma {:induction false} RemovalIsTurns(s: Sys, k: nat)
    requires Removing(s, k)
    ensures RemoveFrom(s, k) == Turns(s, k) && SubscriptionCount(Turns(s, k).db) == 0
    decreases k
  {
    hide Removing, RemoveOne, SubscriptionCount, NthSubscribedTopicId, GetTopicName;
    RemovingCounts(s, k);
    if k > 0 {
      RemoveOneKeeps(s, k);
      RemovalIsTurns(Turn(s), k - 1);
    }
  }
}
